/** The top-level component's session state (App.tsx): the save-state and the
    transient flags the handlers and effects update. Effects run atomically
    here, each as one method call; persistence is not part of this model. */
module App {
  import opened Types
  import opened WaveJournal
  import opened Gemini
  import opened Progression

  /** The suggestion effect's guard: level 3, no suggestion yet (an empty text
      counts as none, being falsy) and some logs. */
  predicate WantsSuggestion(s: GameState, aiSuggestion: Option<string>)
  {
    s.level == 3 && (aiSuggestion.None? || aiSuggestion.value == []) && |s.logs| > 0
  }

  class Component {
    var gameState: GameState
    var isModalOpen: bool
    var showSurpriseTest: bool
    var aiSuggestion: Option<string>

    /** The save-state is one reachable from the initial value. */
    ghost predicate Valid()
      reads this
    {
      Consistent(gameState)
    }

    /** A first session: the initial save-state, nothing open, no suggestion. */
    constructor ()
      ensures Valid()
      ensures gameState == InitialState()
      ensures !isModalOpen && !showSurpriseTest && aiSuggestion == None
    {
      gameState := InitialState();
      isModalOpen := false;
      showSurpriseTest := false;
      aiSuggestion := None;
    }

    /** The "face a wave now" button opens the journal. */
    method OpenJournal()
      modifies this
      ensures isModalOpen
      ensures gameState == old(gameState) && showSurpriseTest == old(showSurpriseTest)
      ensures aiSuggestion == old(aiSuggestion)
    {
      isModalOpen := true;
    }

    /** The journal's close button. */
    method CloseJournal()
      modifies this
      ensures !isModalOpen
      ensures gameState == old(gameState) && showSurpriseTest == old(showSurpriseTest)
      ensures aiSuggestion == old(aiSuggestion)
    {
      isModalOpen := false;
    }

    /** handleWaveSubmit: apply the transition and close the journal. */
    method HandleWaveSubmit(sub: Submission, clock: Clock, calendarDate: int -> string)
      requires Valid() && Submittable(sub)
      modifies this
      ensures Valid()
      ensures gameState == SubmitWave(old(gameState), sub, clock, calendarDate)
      ensures !isModalOpen
      ensures showSurpriseTest == old(showSurpriseTest) && aiSuggestion == old(aiSuggestion)
    {
      SubmitKeepsConsistent(gameState, sub, clock, calendarDate);
      gameState := SubmitWave(gameState, sub, clock, calendarDate);
      isModalOpen := false;
    }

    /** A press of a journal submit button, which exists only in the journal
        step of an open journal: with both fields non-blank the transition runs
        and the journal closes; otherwise nothing changes and no log is added. */
    method SubmitFromJournal(m: Modal, succeeded: bool, clock: Clock, calendarDate: int -> string)
      returns (submitted: bool)
      requires Valid() && isModalOpen && m.step == Journal
      modifies this
      ensures Valid()
      ensures submitted <==> !Blank(m.feeling) && !Blank(m.trigger)
      ensures submitted ==>
        gameState == SubmitWave(old(gameState), Submission(m.feeling, m.trigger, succeeded), clock, calendarDate)
        && !isModalOpen
      ensures !submitted ==> gameState == old(gameState) && isModalOpen == old(isModalOpen)
      ensures showSurpriseTest == old(showSurpriseTest) && aiSuggestion == old(aiSuggestion)
    {
      var r := m.HandleSubmit(succeeded);
      submitted := r.Some?;
      if submitted {
        HandleWaveSubmit(r.value, clock, calendarDate);
      }
    }

    /** handleSurpriseTestAnswer: add the points to the control counter and
        close the check-in. */
    method HandleSurpriseTestAnswer(points: int)
      requires Valid() && points >= 0
      modifies this
      ensures Valid()
      ensures gameState == AnswerSurprise(old(gameState), points)
      ensures !showSurpriseTest
      ensures isModalOpen == old(isModalOpen) && aiSuggestion == old(aiSuggestion)
    {
      gameState := AnswerSurprise(gameState, points);
      showSurpriseTest := false;
    }

    /** The check-in's dismiss button. */
    method DismissSurpriseTest()
      modifies this
      ensures !showSurpriseTest
      ensures gameState == old(gameState) && isModalOpen == old(isModalOpen)
      ensures aiSuggestion == old(aiSuggestion)
    {
      showSurpriseTest := false;
    }

    /** One evaluation of the surprise effect with the clock reading `now` and
        a freshly drawn wait: the check-in opens when the trigger decides so. */
    method SurpriseCheck(now: int, threshold: real)
      requires ValidWait(threshold)
      modifies this
      ensures showSurpriseTest == (old(showSurpriseTest)
        || ShouldOpenSurprise(gameState, isModalOpen, old(showSurpriseTest), now, threshold))
      ensures gameState == old(gameState) && isModalOpen == old(isModalOpen)
      ensures aiSuggestion == old(aiSuggestion)
    {
      if ShouldOpenSurprise(gameState, isModalOpen, showSurpriseTest, now, threshold) {
        showSurpriseTest := true;
      }
    }

    /** The insight effect with the service's reply. */
    method InsightEffect(reply: TextReply)
      requires Valid()
      modifies this
      ensures Valid()
      ensures gameState == ReceiveInsight(old(gameState), reply)
      ensures isModalOpen == old(isModalOpen) && showSurpriseTest == old(showSurpriseTest)
      ensures aiSuggestion == old(aiSuggestion)
    {
      gameState := ReceiveInsight(gameState, reply);
    }

    /** The suggestion effect with the service's reply: stored in the session
        only, not in the save-state. */
    method SuggestionEffect(reply: TextReply)
      modifies this
      ensures WantsSuggestion(old(gameState), old(aiSuggestion)) ==>
        aiSuggestion == Some(GetPersonalizedSuggestion(reply))
      ensures !WantsSuggestion(old(gameState), old(aiSuggestion)) ==> aiSuggestion == old(aiSuggestion)
      ensures gameState == old(gameState) && isModalOpen == old(isModalOpen)
      ensures showSurpriseTest == old(showSurpriseTest)
    {
      if WantsSuggestion(gameState, aiSuggestion) {
        aiSuggestion := Some(GetPersonalizedSuggestion(reply));
      }
    }
  }
}
