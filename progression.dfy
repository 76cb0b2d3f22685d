/** The progression state machine of the top-level component (App.tsx): the
    wave-submission transition with its day, level and point rules, the
    surprise check-in answer, the one-time insight record, and the decision to
    open a surprise check-in. Clock reads, the calendar-date comparison and the
    random wait are inputs. */
module Progression {
  import opened Types
  import opened WaveJournal
  import opened Gemini

  /** Control points a surprise check-in answer awards (the card always passes 2). */
  const SurprisePoints: int := 2

  /** The random wait before a surprise check-in is drawn from [1 h, 2 h), in ms. */
  const SurpriseMinWait: real := 3600000.0
  const SurpriseMaxWait: real := 7200000.0

  /** The save-state of a first session. */
  function InitialState(): (s: GameState)
    ensures Consistent(s) && |s.logs| == 0
  {
    GameState(1, 1, 0, 0, 0, [], None, None, false)
  }

  // ---------------------------------------------------------------------------
  // Levels

  /** The level a day belongs to: 1 before day 4, 2 before day 8, then 3. */
  function LevelOf(day: int): (level: int)
    ensures 1 <= level <= 3
    ensures day >= 1 ==> LevelFloor(level) <= day
  {
    if day >= 8 then 3 else if day >= 4 then 2 else 1
  }

  /** The first day of a level; a level outside 1..3 gets the last floor. */
  function LevelFloor(level: int): int
  {
    if level == 1 then 1 else if level == 2 then 4 else 8
  }

  /** Each level's floor is its first day: the floor belongs to the level,
      the day before it does not. */
  lemma LevelFloorIsFirstDay(level: int)
    requires 1 <= level <= 3
    ensures LevelOf(LevelFloor(level)) == level
    ensures LevelFloor(level) == 1 || LevelOf(LevelFloor(level) - 1) == level - 1
  {
  }

  /** A later day never has a lower level. */
  lemma LevelOfMonotone(earlier: int, later: int)
    requires earlier <= later
    ensures LevelOf(earlier) <= LevelOf(later)
  {
  }

  function Max(a: int, b: int): int
  {
    if a >= b then a else b
  }

  // ---------------------------------------------------------------------------
  // The invariant of every state reached from InitialState

  /** What every reachable save-state satisfies: the day is at least 1 and its
      level is LevelOf(day); the counters are non-negative; the day never runs
      ahead of the log count (each day advance needs a log); every log was
      stamped with a day between 1 and its own position; every logged feeling
      and trigger is non-blank; an insight is stored exactly once requested. */
  ghost predicate Consistent(s: GameState)
  {
    && s.currentDay >= 1
    && s.level == LevelOf(s.currentDay)
    && s.awarenessPoints >= 0 && s.controlPoints >= 0 && s.energy >= 0
    && s.currentDay <= |s.logs| + 1
    && (forall i | 0 <= i < |s.logs| :: 1 <= s.logs[i].day <= i + 1)
    && (forall i | 0 <= i < |s.logs| :: !Blank(s.logs[i].feeling) && !Blank(s.logs[i].trigger))
    && (s.aiInsight.Some? <==> s.insightRequested)
  }

  /** The journal lets a submission through only with both fields non-blank. */
  ghost predicate Submittable(sub: Submission)
  {
    !Blank(sub.feeling) && !Blank(sub.trigger)
  }

  // ---------------------------------------------------------------------------
  // handleWaveSubmit

  /** The two clock reads of one submission: the log stamp and the success time. */
  datatype Clock = Clock(logTime: int, successTime: int)

  /** Whether a success at `now` falls on a new calendar date. A missing last
      success, and also a last success stamped 0 (a falsy number), count as
      none. `calendarDate` stands for the local-time `toDateString`. */
  predicate StartsNewDate(last: Option<int>, now: int, calendarDate: int -> string)
  {
    last.None? || last.value == 0 || calendarDate(last.value) != calendarDate(now)
  }

  /** One log submission. The log is stamped with the day before the update. A
      success advances the day at most once per calendar date and awards one
      point to the counter of the level held before the update; a failure steps
      the day back but not below the floor of the level held. The level is then
      recomputed from the day and the log appended. */
  function SubmitWave(s: GameState, sub: Submission, clock: Clock, calendarDate: int -> string): (r: GameState)
    // the log
    ensures r.logs == s.logs + [LogEntry(s.currentDay, sub.feeling, sub.trigger, sub.succeeded, clock.logTime)]
    // the day and the last success
    ensures sub.succeeded && StartsNewDate(s.lastSuccessTimestamp, clock.successTime, calendarDate) ==>
      r.currentDay == s.currentDay + 1 && r.lastSuccessTimestamp == Some(clock.successTime)
    ensures sub.succeeded && !StartsNewDate(s.lastSuccessTimestamp, clock.successTime, calendarDate) ==>
      r.currentDay == s.currentDay && r.lastSuccessTimestamp == s.lastSuccessTimestamp
    ensures !sub.succeeded ==>
      r.currentDay == Max(LevelFloor(s.level), s.currentDay - 1) && r.lastSuccessTimestamp == s.lastSuccessTimestamp
    // the level
    ensures r.level == LevelOf(r.currentDay)
    // the counters
    ensures sub.succeeded && s.level == 1 ==>
      r.awarenessPoints == s.awarenessPoints + 1 && r.controlPoints == s.controlPoints && r.energy == s.energy
    ensures sub.succeeded && s.level == 2 ==>
      r.awarenessPoints == s.awarenessPoints && r.controlPoints == s.controlPoints + 1 && r.energy == s.energy
    ensures sub.succeeded && s.level == 3 ==>
      r.awarenessPoints == s.awarenessPoints && r.controlPoints == s.controlPoints && r.energy == s.energy + 1
    ensures !sub.succeeded || !(1 <= s.level <= 3) ==>
      r.awarenessPoints == s.awarenessPoints && r.controlPoints == s.controlPoints && r.energy == s.energy
    // the rest
    ensures r.aiInsight == s.aiInsight && r.insightRequested == s.insightRequested
  {
    var log := LogEntry(s.currentDay, sub.feeling, sub.trigger, sub.succeeded, clock.logTime);
    var newDate := StartsNewDate(s.lastSuccessTimestamp, clock.successTime, calendarDate);
    var day :=
      if !sub.succeeded then Max(LevelFloor(s.level), s.currentDay - 1)
      else if newDate then s.currentDay + 1
      else s.currentDay;
    var lastSuccess := if sub.succeeded && newDate then Some(clock.successTime) else s.lastSuccessTimestamp;
    s.(currentDay := day,
       level := LevelOf(day),
       awarenessPoints := if sub.succeeded && s.level == 1 then s.awarenessPoints + 1 else s.awarenessPoints,
       controlPoints := if sub.succeeded && s.level == 2 then s.controlPoints + 1 else s.controlPoints,
       energy := if sub.succeeded && s.level == 3 then s.energy + 1 else s.energy,
       lastSuccessTimestamp := lastSuccess,
       logs := s.logs + [log])
  }

  /** From a consistent state, a failure keeps the level (the day is clamped at
      the level's floor) and a success never lowers it. */
  lemma SubmitNeverLowersLevel(s: GameState, sub: Submission, clock: Clock, calendarDate: int -> string)
    requires Consistent(s)
    ensures var r := SubmitWave(s, sub, clock, calendarDate);
      && s.level <= r.level
      && (!sub.succeeded ==> r.level == s.level)
  {
  }

  /** A submission that the journal lets through keeps the state consistent. */
  lemma SubmitKeepsConsistent(s: GameState, sub: Submission, clock: Clock, calendarDate: int -> string)
    requires Consistent(s) && Submittable(sub)
    ensures Consistent(SubmitWave(s, sub, clock, calendarDate))
  {
  }

  /** Two successes whose success times fall on the same calendar date advance
      the day at most once: whatever failures, check-in answers and insight
      replies come between them, the second leaves the day where it found it. */
  lemma AtMostOneAdvancePerDate(s: GameState, first: Submission, mid: seq<Event>, second: Submission,
                                c1: Clock, c2: Clock, calendarDate: int -> string)
    requires first.succeeded && second.succeeded && NoSuccess(mid)
    requires c1.successTime != 0
    requires calendarDate(c1.successTime) == calendarDate(c2.successTime)
    ensures var s1 := Run(SubmitWave(s, first, c1, calendarDate), mid, calendarDate);
      SubmitWave(s1, second, c2, calendarDate).currentDay == s1.currentDay
  {
    var s0 := SubmitWave(s, first, c1, calendarDate);
    RunKeepsLastSuccess(s0, mid, calendarDate);
    var s1 := Run(s0, mid, calendarDate);
    assert !StartsNewDate(s1.lastSuccessTimestamp, c2.successTime, calendarDate);
  }

  // ---------------------------------------------------------------------------
  // handleSurpriseTestAnswer and the one-time insight

  /** Answering a surprise check-in adds the points to the control counter and
      changes nothing else. */
  function AnswerSurprise(s: GameState, points: int): (r: GameState)
    ensures r.controlPoints == s.controlPoints + points
    ensures r.(controlPoints := s.controlPoints) == s
  {
    s.(controlPoints := s.controlPoints + points)
  }

  /** The effect's condition for asking for the insight (day 4 reached, not asked yet). */
  predicate WantsInsight(s: GameState)
  {
    s.currentDay >= 4 && !s.insightRequested
  }

  /** The fetch's own guard (some logs, not asked yet). */
  predicate CanFetchInsight(s: GameState)
  {
    |s.logs| > 0 && !s.insightRequested
  }

  /** In a consistent state the effect's condition already implies the fetch's
      guard: by day 4 at least three logs exist. */
  lemma InsightGuardImplied(s: GameState)
    requires Consistent(s) && WantsInsight(s)
    ensures CanFetchInsight(s) && |s.logs| >= 3
  {
  }

  /** Storing the insight marks it requested, whatever the text, and changes nothing else. */
  function RecordInsight(s: GameState, insight: string): (r: GameState)
    ensures r.aiInsight == Some(insight) && r.insightRequested
    ensures r.(aiInsight := s.aiInsight, insightRequested := s.insightRequested) == s
  {
    s.(aiInsight := Some(insight), insightRequested := true)
  }

  /** The insight effect: when both guards hold, the service's reply (or the
      apology on failure) is stored; otherwise nothing changes. */
  function ReceiveInsight(s: GameState, reply: TextReply): (r: GameState)
    ensures WantsInsight(s) && CanFetchInsight(s) ==> r == RecordInsight(s, AnalyzeJournal(reply))
    ensures !(WantsInsight(s) && CanFetchInsight(s)) ==> r == s
  {
    if WantsInsight(s) && CanFetchInsight(s) then RecordInsight(s, AnalyzeJournal(reply)) else s
  }

  // ---------------------------------------------------------------------------
  // Runs of events from a state

  /** What can happen to the save-state: a submission from the journal, an
      answered surprise check-in, the reply to the insight request. */
  datatype Event =
    | WaveSubmitted(sub: Submission, clock: Clock)
    | SurpriseAnswered
    | InsightReturned(reply: TextReply)

  /** The journal only lets non-blank submissions through. */
  ghost predicate ValidEvents(events: seq<Event>)
  {
    forall i | 0 <= i < |events| :: events[i].WaveSubmitted? ==> Submittable(events[i].sub)
  }

  function Apply(s: GameState, e: Event, calendarDate: int -> string): GameState
  {
    match e
    case WaveSubmitted(sub, clock) => SubmitWave(s, sub, clock, calendarDate)
    case SurpriseAnswered => AnswerSurprise(s, SurprisePoints)
    case InsightReturned(reply) => ReceiveInsight(s, reply)
  }

  function Run(s: GameState, events: seq<Event>, calendarDate: int -> string): GameState
    decreases |events|
  {
    if events == [] then s else Run(Apply(s, events[0], calendarDate), events[1..], calendarDate)
  }

  /** Number of submissions among the events. */
  function SubmissionCount(events: seq<Event>): nat
  {
    if events == [] then 0
    else (if events[0].WaveSubmitted? then 1 else 0) + SubmissionCount(events[1..])
  }

  /** No submission among the events is a success. */
  predicate NoSuccess(events: seq<Event>)
  {
    forall i | 0 <= i < |events| :: events[i].WaveSubmitted? ==> !events[i].sub.succeeded
  }

  /** Only a success touches the last-success time: failures, check-in answers
      and insight replies leave it as it was. */
  lemma {:induction false} RunKeepsLastSuccess(s: GameState, events: seq<Event>, calendarDate: int -> string)
    requires NoSuccess(events)
    ensures Run(s, events, calendarDate).lastSuccessTimestamp == s.lastSuccessTimestamp
    decreases |events|
  {
    if events != [] {
      assert NoSuccess(events[1..]) by {
        forall i | 0 <= i < |events| - 1 ensures events[1..][i] == events[i + 1] { }
      }
      RunKeepsLastSuccess(Apply(s, events[0], calendarDate), events[1..], calendarDate);
    }
  }

  /** Every event keeps a consistent state consistent. */
  lemma ApplyKeepsConsistent(s: GameState, e: Event, calendarDate: int -> string)
    requires Consistent(s)
    requires e.WaveSubmitted? ==> Submittable(e.sub)
    ensures Consistent(Apply(s, e, calendarDate))
  {
    if e.WaveSubmitted? {
      SubmitKeepsConsistent(s, e.sub, e.clock, calendarDate);
    }
  }

  lemma {:induction false} RunKeepsConsistent(s: GameState, events: seq<Event>, calendarDate: int -> string)
    requires Consistent(s) && ValidEvents(events)
    ensures Consistent(Run(s, events, calendarDate))
    decreases |events|
  {
    if events != [] {
      ApplyKeepsConsistent(s, events[0], calendarDate);
      assert ValidEvents(events[1..]) by {
        forall i | 0 <= i < |events| - 1 ensures events[1..][i] == events[i + 1] { }
      }
      RunKeepsConsistent(Apply(s, events[0], calendarDate), events[1..], calendarDate);
    }
  }

  /** The invariant holds in every state reachable from the initial one; in
      particular the level is always LevelOf(currentDay). */
  lemma ReachableIsConsistent(events: seq<Event>, calendarDate: int -> string)
    requires ValidEvents(events)
    ensures var r := Run(InitialState(), events, calendarDate);
      Consistent(r) && r.level == LevelOf(r.currentDay) && 1 <= r.level <= 3
  {
    RunKeepsConsistent(InitialState(), events, calendarDate);
  }

  /** Along any run the counters never decrease, earlier logs stay as they were
      with one log appended per submission, and once the insight was requested
      it stays requested and unchanged. */
  lemma {:induction false} RunMonotone(s: GameState, events: seq<Event>, calendarDate: int -> string)
    ensures var r := Run(s, events, calendarDate);
      && s.awarenessPoints <= r.awarenessPoints
      && s.controlPoints <= r.controlPoints
      && s.energy <= r.energy
      && |r.logs| == |s.logs| + SubmissionCount(events)
      && r.logs[..|s.logs|] == s.logs
      && (s.insightRequested ==> r.insightRequested && r.aiInsight == s.aiInsight)
    decreases |events|
  {
    if events != [] {
      var s1 := Apply(s, events[0], calendarDate);
      RunMonotone(s1, events[1..], calendarDate);
      var r := Run(s1, events[1..], calendarDate);
      assert r.logs[..|s.logs|] == r.logs[..|s1.logs|][..|s.logs|];
    }
  }

  /** Along any run from a consistent state the level never decreases. */
  lemma {:induction false} RunLevelNeverDrops(s: GameState, events: seq<Event>, calendarDate: int -> string)
    requires Consistent(s) && ValidEvents(events)
    ensures s.level <= Run(s, events, calendarDate).level
    decreases |events|
  {
    if events != [] {
      var s1 := Apply(s, events[0], calendarDate);
      if events[0].WaveSubmitted? {
        SubmitNeverLowersLevel(s, events[0].sub, events[0].clock, calendarDate);
      }
      ApplyKeepsConsistent(s, events[0], calendarDate);
      assert ValidEvents(events[1..]) by {
        forall i | 0 <= i < |events| - 1 ensures events[1..][i] == events[i + 1] { }
      }
      RunLevelNeverDrops(s1, events[1..], calendarDate);
    }
  }

  // ---------------------------------------------------------------------------
  // The surprise check-in trigger

  /** Time since the last log; unbounded (JavaScript's Infinity) when there is none. */
  datatype Elapsed = Finite(ms: int) | Unbounded

  function ElapsedSinceLastLog(logs: seq<LogEntry>, now: int): (e: Elapsed)
    ensures e.Unbounded? <==> |logs| == 0
    ensures |logs| > 0 ==> e.ms == now - logs[|logs| - 1].timestamp
  {
    if |logs| > 0 then Finite(now - logs[|logs| - 1].timestamp) else Unbounded
  }

  /** A draw of `Math.random() * 3600000 + 3600000`. */
  predicate ValidWait(threshold: real)
  {
    SurpriseMinWait <= threshold < SurpriseMaxWait
  }

  /** Whether the check-in is scheduled: only at level 2 with the journal closed
      and no check-in showing, once the time since the last log exceeds the
      random wait. A log younger than an hour never triggers it; with no logs,
      or a log two hours old or more, it always does. */
  function ShouldOpenSurprise(s: GameState, isModalOpen: bool, showSurpriseTest: bool, now: int, threshold: real): (open: bool)
    requires ValidWait(threshold)
    ensures open ==> s.level == 2 && !isModalOpen && !showSurpriseTest
    ensures open && |s.logs| > 0 ==> now - s.logs[|s.logs| - 1].timestamp > 3600000
    ensures (s.level == 2 && !isModalOpen && !showSurpriseTest
             && (|s.logs| == 0 || now - s.logs[|s.logs| - 1].timestamp >= 7200000)) ==> open
  {
    if s.level == 2 && !isModalOpen && !showSurpriseTest then
      match ElapsedSinceLastLog(s.logs, now)
      case Unbounded => true
      case Finite(ms) => ms as real > threshold
    else false
  }

  /** From the initial state level 2 is never reached without logs, so the
      unbounded case never decides a check-in. */
  lemma Level2HasLogs(s: GameState)
    requires Consistent(s) && s.level == 2
    ensures |s.logs| >= 3
  {
  }

  // ---------------------------------------------------------------------------
  // Worked scenarios

  /** A first success from the initial state: day 2, still level 1, one awareness point. */
  lemma FirstSuccess(sub: Submission, clock: Clock, calendarDate: int -> string)
    requires sub.succeeded
    ensures var r := SubmitWave(InitialState(), sub, clock, calendarDate);
      r.currentDay == 2 && r.level == 1 && r.awarenessPoints == 1 && r.controlPoints == 0 && r.energy == 0
  {
  }

  /** A failure on the first day of level 2 leaves the day at 4. */
  lemma FailureAtFloor(s: GameState, sub: Submission, clock: Clock, calendarDate: int -> string)
    requires s.currentDay == 4 && s.level == 2 && !sub.succeeded
    ensures var r := SubmitWave(s, sub, clock, calendarDate);
      r.currentDay == 4 && r.level == 2 && r.controlPoints == s.controlPoints
  {
  }

  /** A new-date success on day 7 moves to day 8 and level 3, and the point goes
      to the control counter of the level held before. */
  lemma SuccessIntoLevel3(s: GameState, sub: Submission, clock: Clock, calendarDate: int -> string)
    requires s.currentDay == 7 && s.level == 2 && sub.succeeded
    requires StartsNewDate(s.lastSuccessTimestamp, clock.successTime, calendarDate)
    ensures var r := SubmitWave(s, sub, clock, calendarDate);
      r.currentDay == 8 && r.level == 3 && r.controlPoints == s.controlPoints + 1 && r.energy == s.energy
  {
  }
}
