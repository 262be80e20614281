/** The session object of app.py: `st.session_state` with its `thread_id`
    and its `messages` list, and the three handlers that change them. Each
    method does what app.py does, step by step, and is proved to end in the
    state the functions of the Conversation module describe. */
module SessionState {
  import opened Wrappers
  import opened Transliteration
  import opened Conversation
  import opened ConversationProperties

  class Session {
    var threadId: Option<string>
    var messages: seq<Message>

    /** The state as a value. */
    function Snapshot(): State
      reads this
    {
      State(threadId, messages)
    }

    ghost predicate Valid()
      reads this
    {
      WellFormed(messages)
    }

    /** A new session: an empty history and no thread (app.py:122-124). */
    constructor ()
      ensures Valid() && threadId == None && messages == []
    {
      threadId := None;
      messages := [];
    }

    /** `get_or_create_thread`: ask the service for a thread (whose answer is
        `created`) only when no usable id is stored. */
    method GetOrCreateThread(created: Option<string>) returns (handle: Option<string>, requested: bool)
      modifies this`threadId
      ensures var a := Acquire(old(threadId), created);
              threadId == a.stored && handle == a.handle && requested == a.requested
      ensures requested <==> !Usable(old(threadId))
      ensures !requested ==> handle == old(threadId) && threadId == old(threadId)
      ensures requested ==> handle == created && threadId == (if created.Some? then created else old(threadId))
    {
      if !Usable(threadId) {
        requested := true;
        match created {
          case Some(id) =>
            threadId := Some(id);
            handle := Some(id);
          case None =>
            handle := None;
        }
      } else {
        requested := false;
        handle := threadId;
      }
    }

    /** The chat-input handler: an empty input changes nothing; otherwise
        record the raw prompt, convert it, get a thread, and either stop with
        an error record or submit the converted prompt and record what the run
        came to. */
    method HandleTurn(tr: Transliterator, prompt: string, created: Option<string>, outcome: RunOutcome)
      returns (sent: Submission)
      requires Valid()
      modifies this
      ensures Valid()
      ensures prompt == "" ==> Snapshot() == old(Snapshot()) && sent == NotSubmitted
      ensures prompt != "" ==>
                var t := TakeTurn(tr, old(Snapshot()), prompt, created, outcome);
                Snapshot() == t.after && sent == t.sent
      ensures old(messages) <= messages
      ensures prompt != "" ==> messages[|old(messages)|] == UserMessage(prompt)
      ensures prompt != "" ==> (|messages| == |old(messages)| + 1 <==> Usable(threadId) && outcome.RequiresAction?)
    {
      if prompt == "" {
        sent := NotSubmitted;
        return;
      }
      ghost var before := Snapshot();
      TurnKeepsWellFormed(tr, before, prompt, created, outcome);
      messages := messages + [UserMessage(prompt)];
      var processed := PreprocessQuestion(tr, prompt);
      var handle, requested := GetOrCreateThread(created);
      if !Usable(handle) {
        messages := messages + [Notice(NoThreadText)];
        sent := NotSubmitted;
        return;
      }
      sent := Submitted(handle.value, processed.text);
      match outcome {
        case Completed(reply) =>
          var response := PostprocessResponse(tr, reply);
          var converted := response.status == Converted;
          messages := messages + [Message(Assistant, response.text, if converted then Some(reply) else None, Some(converted))];
        case RunFailed(lastError) =>
          messages := messages + [Notice(FailedText(lastError))];
        case RequiresAction =>
        case Other(status) =>
          messages := messages + [Notice(WaitingText(status))];
        case Raised(error) =>
          messages := messages + [Notice(ErrorText(error))];
      }
    }

    /** The "clear chat" handler: empty the history first, then try to
        create a new thread; `ok` says whether it was created. */
    method ClearChat(created: Option<string>) returns (ok: bool)
      modifies this
      ensures Valid()
      ensures Snapshot() == Reset(old(Snapshot()), created)
      ensures messages == [] && ok == created.Some?
      ensures threadId == if ok then created else old(threadId)
    {
      messages := [];
      match created {
        case Some(id) =>
          threadId := Some(id);
          ok := true;
        case None =>
          ok := false;
      }
    }
  }
}
