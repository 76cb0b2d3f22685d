/** The wave-journal modal (components/WaveJournalModal.tsx): a 90-second guided
    countdown in three phases, then a form whose two text fields must not be blank. */
module WaveJournal {
  import opened Types

  /** Length of the guided exercise, in one-second ticks. */
  const ExerciseSeconds: int := 90

  datatype Step = Exercise | Journal

  /** The three phases of the exercise: breathe deeply, move a little, notice your surroundings. */
  datatype Phase = Breathe | Move | Notice

  /** What the modal hands to its `onSubmit` callback. */
  datatype Submission = Submission(feeling: string, trigger: string, succeeded: bool)

  function PhaseRank(p: Phase): nat
  {
    match p
    case Breathe => 0
    case Move => 1
    case Notice => 2
  }

  /** The phase shown for a given number of remaining seconds. */
  function ExercisePhase(timer: int): (p: Phase)
    ensures p == Breathe <==> timer > 60
    ensures p == Move <==> 30 < timer <= 60
    ensures p == Notice <==> timer <= 30
  {
    if timer > 60 then Breathe
    else if timer > 30 then Move
    else Notice
  }

  /** As the countdown runs down the phases only move forward. */
  lemma PhaseNeverGoesBack(earlier: int, later: int)
    requires later <= earlier
    ensures PhaseRank(ExercisePhase(earlier)) <= PhaseRank(ExercisePhase(later))
  {
  }

  // ---------------------------------------------------------------------------
  // String.prototype.trim

  /** ECMAScript WhiteSpace and LineTerminator code points: what `trim` removes. */
  predicate IsWhitespace(c: char)
  {
    || c == '\t' || c == '\n' || c == '\U{000B}' || c == '\U{000C}' || c == '\r'
    || c == ' ' || c == '\U{00A0}' || c == '\U{1680}'
    || ('\U{2000}' <= c <= '\U{200A}')
    || c == '\U{2028}' || c == '\U{2029}' || c == '\U{202F}' || c == '\U{205F}'
    || c == '\U{3000}' || c == '\U{FEFF}'
  }

  /** Every character of `s` is whitespace (the empty string included). */
  predicate Blank(s: string)
  {
    forall i | 0 <= i < |s| :: IsWhitespace(s[i])
  }

  /** `s` without its leading whitespace: a suffix of `s` that starts with a
      non-whitespace character (or is empty), all of whose removed prefix is whitespace. */
  function TrimStart(s: string): (r: string)
    ensures |r| <= |s| && r == s[|s| - |r|..]
    ensures r == [] || !IsWhitespace(r[0])
    ensures Blank(s[..|s| - |r|])
  {
    if |s| > 0 && IsWhitespace(s[0]) then
      var r := TrimStart(s[1..]);
      assert s[..|s| - |r|] == [s[0]] + s[1..][..|s| - 1 - |r|];
      r
    else
      s
  }

  /** `s` without its trailing whitespace: a prefix of `s` that ends with a
      non-whitespace character (or is empty), all of whose removed suffix is whitespace. */
  function TrimEnd(s: string): (r: string)
    ensures |r| <= |s| && r == s[..|r|]
    ensures r == [] || !IsWhitespace(r[|r| - 1])
    ensures Blank(s[|r|..])
  {
    if |s| > 0 && IsWhitespace(s[|s| - 1]) then
      var r := TrimEnd(s[..|s| - 1]);
      assert s[|r|..] == s[..|s| - 1][|r|..] + [s[|s| - 1]];
      r
    else
      s
  }

  /** `r` sits in `s` at index `i` with only whitespace before and after it. */
  predicate CutFrom(s: string, r: string, i: int)
  {
    0 <= i <= |s| - |r| && r == s[i..i + |r|] && Blank(s[..i]) && Blank(s[i + |r|..])
  }

  /** `s.trim()`: a contiguous piece of `s` with only whitespace cut on either
      side, empty or beginning and ending with non-whitespace. */
  function Trim(s: string): (r: string)
    ensures r == [] || (!IsWhitespace(r[0]) && !IsWhitespace(r[|r| - 1]))
    ensures exists i :: CutFrom(s, r, i)
  {
    var t := TrimStart(s);
    var r := TrimEnd(t);
    CutTwice(s, |s| - |t|, t, r);
    r
  }

  /** Cutting a blank prefix off `s` and then a blank suffix off the rest
      leaves a piece of `s` with blank text on both sides. */
  lemma CutTwice(s: string, i: int, t: string, r: string)
    requires 0 <= i <= |s| && t == s[i..] && Blank(s[..i])
    requires |r| <= |t| && r == t[..|r|] && Blank(t[|r|..])
    ensures CutFrom(s, r, i)
  {
    assert t[|r|..] == s[i + |r|..];
  }

  /** `s.trim()` is falsy (the empty string) exactly when `s` is blank. */
  lemma TrimEmptyIffBlank(s: string)
    ensures Trim(s) == [] <==> Blank(s)
  {
  }

  // ---------------------------------------------------------------------------
  // The modal's state

  class Modal {
    var step: Step
    var timer: int
    var feeling: string
    var trigger: string

    /** The timer stays within [0, 90] and the form opens only once it has reached 0. */
    ghost predicate Valid()
      reads this
    {
      0 <= timer <= ExerciseSeconds && (step == Journal ==> timer == 0)
    }

    /** A freshly mounted modal: exercise step, full countdown, empty fields. */
    constructor ()
      ensures Valid()
      ensures step == Exercise && timer == ExerciseSeconds && feeling == [] && trigger == []
    {
      step := Exercise;
      timer := ExerciseSeconds;
      feeling := [];
      trigger := [];
    }

    /** One firing of the countdown effect: while exercising with time left the
        timer drops by exactly one; once it is 0 the journal step opens. */
    method Tick()
      requires Valid()
      modifies this
      ensures Valid()
      ensures old(step) == Exercise && old(timer) > 0 ==> step == Exercise && timer == old(timer) - 1
      ensures old(timer) == 0 ==> step == Journal && timer == 0
      ensures feeling == old(feeling) && trigger == old(trigger)
    {
      if step == Exercise && timer > 0 {
        timer := timer - 1;
      } else if timer == 0 {
        step := Journal;
      }
    }

    method SetFeeling(value: string)
      modifies this
      ensures feeling == value
      ensures step == old(step) && timer == old(timer) && trigger == old(trigger)
    {
      feeling := value;
    }

    method SetTrigger(value: string)
      modifies this
      ensures trigger == value
      ensures step == old(step) && timer == old(timer) && feeling == old(feeling)
    {
      trigger := value;
    }

    /** The submit guard: a submission happens exactly when neither field is blank,
        and it carries the fields as typed, untrimmed. `None` is the re-prompt. */
    method HandleSubmit(succeeded: bool) returns (r: Option<Submission>)
      ensures r.Some? <==> !Blank(feeling) && !Blank(trigger)
      ensures r.Some? ==> r.value == Submission(feeling, trigger, succeeded)
    {
      TrimEmptyIffBlank(feeling);
      TrimEmptyIffBlank(trigger);
      if Trim(feeling) != [] && Trim(trigger) != [] {
        r := Some(Submission(feeling, trigger, succeeded));
      } else {
        r := None;
      }
    }
  }

  /** The countdown effect firing until the form opens: from any point of the
      exercise it takes the remaining seconds plus one final firing, and the
      timer never goes below 0. */
  method RunCountdown(m: Modal) returns (ticks: nat)
    requires m.Valid() && m.step == Exercise
    modifies m
    ensures m.Valid() && m.step == Journal && m.timer == 0
    ensures ticks == old(m.timer) + 1
    ensures m.feeling == old(m.feeling) && m.trigger == old(m.trigger)
  {
    ticks := 0;
    while m.step == Exercise
      invariant m.Valid()
      invariant m.step == Exercise ==> ticks + m.timer == old(m.timer)
      invariant m.step == Journal ==> ticks == old(m.timer) + 1
      invariant m.feeling == old(m.feeling) && m.trigger == old(m.trigger)
      decreases m.timer + (if m.step == Exercise then 1 else 0)
    {
      m.Tick();
      ticks := ticks + 1;
    }
  }
}
