/** Properties of the conversation state machine: thread acquisition is
    idempotent, each outcome of a turn appends exactly the records app.py
    appends, the history keeps its shape, and it only grows until it is
    cleared. */
module ConversationProperties {
  import opened Wrappers
  import opened Transliteration
  import opened Conversation

  /** Once an acquisition returned a usable handle, the next one makes no
      remote request and returns the same handle, whatever the service would
      have answered. */
  lemma AcquireIsIdempotent(stored: Option<string>, first: Option<string>, second: Option<string>)
    requires Usable(Acquire(stored, first).handle)
    ensures var a := Acquire(stored, first);
            var b := Acquire(a.stored, second);
            !b.requested && b.handle == a.handle && b.stored == a.stored
  {
  }

  /** With no usable thread stored, a successful creation stores the new id
      and returns it; a failed one returns nothing and stores nothing new. */
  lemma AcquireCreatesOnlyWhenMissing(stored: Option<string>, created: Option<string>)
    requires !Usable(stored)
    ensures var a := Acquire(stored, created);
            a.requested &&
            (created.Some? ==> a.stored == created && a.handle == created) &&
            (created.None? ==> a.stored == stored && a.handle == None)
  {
  }

  /** Without a usable thread the turn appends the prompt and one error
      record, and submits nothing. */
  lemma NoThreadMeansNoSubmission(tr: Transliterator, s: State, prompt: string, created: Option<string>, outcome: RunOutcome)
    requires prompt != ""
    requires !Usable(Acquire(s.threadId, created).handle)
    ensures var t := TakeTurn(tr, s, prompt, created, outcome);
            t.sent == NotSubmitted &&
            t.after.messages == s.messages + [UserMessage(prompt), Notice(NoThreadText)]
  {
  }

  /** With a usable thread, the converted prompt goes to that thread. */
  lemma SubmitsConvertedPrompt(tr: Transliterator, s: State, prompt: string, created: Option<string>, outcome: RunOutcome)
    requires prompt != ""
    requires Usable(Acquire(s.threadId, created).handle)
    ensures var t := TakeTurn(tr, s, prompt, created, outcome);
            t.sent == Submitted(t.after.threadId.value, PreprocessQuestion(tr, prompt).text) &&
            (tr(prompt, Latin, Cyrillic).Some? ==> tr(prompt, Latin, Cyrillic) == Some(t.sent.text)) &&
            (tr(prompt, Latin, Cyrillic).None? ==> t.sent.text == prompt)
  {
  }

  /** A completed run appends the prompt and one answer record: its content
      is the Latin text, converted says whether the conversion worked, and the
      Cyrillic reply is kept as original exactly when it did. */
  lemma CompletedTurnAppendsAnswer(tr: Transliterator, s: State, prompt: string, created: Option<string>, reply: string)
    requires prompt != ""
    requires Usable(Acquire(s.threadId, created).handle)
    ensures var h := TakeTurn(tr, s, prompt, created, Completed(reply)).after.messages;
            var m := h[|h| - 1];
            |h| == |s.messages| + 2 && h[|s.messages|] == UserMessage(prompt) &&
            m.role == Assistant &&
            (tr(reply, Cyrillic, Latin).Some? ==>
               tr(reply, Cyrillic, Latin) == Some(m.content) && m.converted == Some(true) && m.original == Some(reply)) &&
            (tr(reply, Cyrillic, Latin).None? ==>
               m.content == reply && m.converted == Some(false) && m.original == None)
  {
  }

  /** A failed run, an unfinished status and an exception each append the
      prompt and one diagnostic record; a run that requires action appends the
      prompt alone. */
  lemma DiagnosticTurns(tr: Transliterator, s: State, prompt: string, created: Option<string>, outcome: RunOutcome)
    requires prompt != "" && KnownOutcome(outcome)
    requires Usable(Acquire(s.threadId, created).handle)
    requires !outcome.Completed?
    ensures var h := TakeTurn(tr, s, prompt, created, outcome).after.messages;
            var u := s.messages + [UserMessage(prompt)];
            (outcome.RunFailed? && outcome.lastError.Some? ==> h == u + [Notice("❌ Xatolik yuz berdi: " + outcome.lastError.value)]) &&
            (outcome.RunFailed? && outcome.lastError.None? ==> h == u + [Notice("❌ Xatolik yuz berdi: failed")]) &&
            (outcome.Other? ==> h == u + [Notice(WaitingText(outcome.status))]) &&
            (outcome.Raised? ==> h == u + [Notice("❌ Xatolik: " + outcome.error)]) &&
            (outcome.RequiresAction? ==> h == u)
  {
    if outcome.RunFailed? && outcome.lastError.None? {
      assert FailedText(None) == "❌ Xatolik yuz berdi: failed";
    }
  }

  /** A turn keeps the history's shape. */
  lemma TurnKeepsWellFormed(tr: Transliterator, s: State, prompt: string, created: Option<string>, outcome: RunOutcome)
    requires prompt != ""
    requires WellFormed(s.messages)
    ensures WellFormed(TakeTurn(tr, s, prompt, created, outcome).after.messages)
  {
  }

  /** "Clear chat" always empties the history; the thread id is replaced only
      when the new thread was created, and otherwise the old one stays. */
  lemma ResetClearsHistory(s: State, created: Option<string>)
    ensures Reset(s, created).messages == [] && WellFormed(Reset(s, created).messages)
    ensures created.Some? ==> Reset(s, created).threadId == created
    ensures created.None? ==> Reset(s, created).threadId == s.threadId
  {
  }

  /** Without a "clear chat", the history only grows: the old records stay in
      place, and each chat input past the guard adds its prompt and at most
      one reply, while an empty one adds nothing. */
  lemma {:induction false} HistoryIsAppendOnly(tr: Transliterator, s: State, events: seq<Event>)
    requires NoClear(events)
    ensures var h := Replay(tr, s, events).messages;
            s.messages <= h && |s.messages| + Asked(events) <= |h| <= |s.messages| + 2 * Asked(events)
    decreases |events|
  {
    if events != [] {
      var next := Step(tr, s, events[0]);
      assert NoClear(events[1..]) by {
        forall i | 0 <= i < |events[1..]| ensures events[1..][i].Ask? { assert events[1..][i] == events[i + 1]; }
      }
      HistoryIsAppendOnly(tr, next, events[1..]);
      var h := Replay(tr, next, events[1..]).messages;
      assert s.messages <= next.messages;
      assert s.messages == h[..|s.messages|] by {
        assert next.messages == h[..|next.messages|];
        assert s.messages == next.messages[..|s.messages|];
      }
    }
  }

  /** Without a "clear chat", a usable thread id stays the same through any
      number of turns. */
  lemma {:induction false} ThreadIsStable(tr: Transliterator, s: State, events: seq<Event>)
    requires Usable(s.threadId) && NoClear(events)
    ensures Replay(tr, s, events).threadId == s.threadId
    decreases |events|
  {
    if events != [] {
      assert NoClear(events[1..]) by {
        forall i | 0 <= i < |events[1..]| ensures events[1..][i].Ask? { assert events[1..][i] == events[i + 1]; }
      }
      ThreadIsStable(tr, Step(tr, s, events[0]), events[1..]);
    }
  }

  /** Every reachable history has the shape WellFormed describes. */
  lemma {:induction false} ReplayKeepsWellFormed(tr: Transliterator, s: State, events: seq<Event>)
    requires WellFormed(s.messages)
    ensures WellFormed(Replay(tr, s, events).messages)
    decreases |events|
  {
    if events != [] {
      match events[0] {
        case Ask(prompt, created, outcome) =>
          if prompt != "" { TurnKeepsWellFormed(tr, s, prompt, created, outcome); }
        case Clear(created) => ResetClearsHistory(s, created);
      }
      ReplayKeepsWellFormed(tr, Step(tr, s, events[0]), events[1..]);
    }
  }
}
