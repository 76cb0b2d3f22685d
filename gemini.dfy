/** The advisory service wrapper (services/geminiService.ts): the transcript of the
    log history that goes into every prompt, the trigger the suggestion is asked
    about, and the fixed fallbacks used when the generative-text service fails.
    The service itself is an input: each call's outcome is a reply value. */
module Gemini {
  import opened Types

  // ---------------------------------------------------------------------------
  // Fixed texts

  /** Transcript used when there are no logs ("no logs yet."). */
  const NoLogsText: string := "لا توجد سجلات بعد."

  /** The pieces of one transcript line: "- day D: I felt 'F' because of 'T'. <outcome>". */
  const LinePrefix: string := "- اليوم "
  const FeelingOpen: string := ": شعرت بـ'"
  const TriggerOpen: string := "' بسبب '"
  const OutcomeOpen: string := "'. "

  /** "I managed to resist." / "I did not succeed." */
  const SuccessPhrase: string := "نجحت في المقاومة."
  const FailurePhrase: string := "لم أنجح."

  /** Trigger the suggestion is asked about when there are no logs ("boredom"). */
  const DefaultTrigger: string := "الملل"

  /** Insight text when the service fails (an apology asking to try again). */
  const InsightApology: string := "حدث خطأ أثناء تحليل ملاحظاتك. يرجى المحاولة مرة أخرى."

  /** Suggestion text when the service fails ("try taking 3 deep breaths."). */
  const SuggestionFallback: string := "جرّب أخذ 3 أنفاس عميقة."

  /** Alternatives when the service fails: breathe deeply, move a little, drink water. */
  const FallbackAlternatives: seq<string> := ["تنفس بعمق", "تحرك قليلاً", "اشرب ماء"]

  // ---------------------------------------------------------------------------
  // Decimal rendering of the day number (a template literal `${log.day}`)

  predicate IsDigit(c: char)
  {
    '0' <= c <= '9'
  }

  predicate AllDigits(s: string)
  {
    forall i | 0 <= i < |s| :: IsDigit(s[i])
  }

  function DigitChar(d: int): (c: char)
    requires 0 <= d < 10
    ensures IsDigit(c)
  {
    ('0' as int + d) as char
  }

  /** Decimal digits of `n`, most significant first, no leading zero. */
  function NatToDecimal(n: nat): (r: string)
    ensures |r| >= 1 && AllDigits(r)
    ensures r[0] == '0' ==> n == 0 && |r| == 1
  {
    if n < 10 then [DigitChar(n)] else NatToDecimal(n / 10) + [DigitChar(n % 10)]
  }

  function IntToDecimal(n: int): (r: string)
    ensures |r| >= 1
  {
    if n < 0 then "-" + NatToDecimal(-n) else NatToDecimal(n)
  }

  /** The value of a string of decimal digits: the reading side of NatToDecimal. */
  function DecimalValue(s: string): (v: nat)
    requires AllDigits(s)
  {
    if s == [] then 0 else DecimalValue(s[..|s| - 1]) * 10 + (s[|s| - 1] as int - '0' as int)
  }

  /** An optionally signed decimal numeral, or None. */
  function ParseInt(s: string): (r: Option<int>)
  {
    if |s| > 1 && s[0] == '-' && AllDigits(s[1..]) then Some(0 - DecimalValue(s[1..]))
    else if |s| > 0 && AllDigits(s) then Some(DecimalValue(s))
    else None
  }

  lemma {:induction false} NatToDecimalRoundTrip(n: nat)
    ensures DecimalValue(NatToDecimal(n)) == n
  {
    if n >= 10 {
      var s := NatToDecimal(n);
      NatToDecimalRoundTrip(n / 10);
      assert s[..|s| - 1] == NatToDecimal(n / 10);
    }
  }

  /** The rendered day number reads back as the day. */
  lemma IntToDecimalRoundTrip(n: int)
    ensures ParseInt(IntToDecimal(n)) == Some(n)
  {
    var s := IntToDecimal(n);
    if n < 0 {
      var t := NatToDecimal(-n);
      NatToDecimalRoundTrip(-n);
      assert s[1..] == t;
      assert |s| > 1 && s[0] == '-' && AllDigits(s[1..]);
    } else {
      NatToDecimalRoundTrip(n);
      assert IsDigit(s[0]);
    }
  }

  /** No rendered number contains a newline or a colon. */
  lemma IntToDecimalChars(n: int)
    ensures forall i | 0 <= i < |IntToDecimal(n)| :: IntToDecimal(n)[i] != '\n' && IntToDecimal(n)[i] != ':'
  {
  }

  // ---------------------------------------------------------------------------
  // Lines: Array.prototype.join('\n') and the matching split

  /** Index of the first `c` in `s`, or |s| when there is none. */
  function FirstIndex(s: string, c: char): (k: nat)
    ensures k <= |s|
    ensures forall i | 0 <= i < k :: s[i] != c
    ensures k < |s| ==> s[k] == c
  {
    if s == [] then 0 else if s[0] == c then 0 else 1 + FirstIndex(s[1..], c)
  }

  /** `lines.join('\n')` for a non-empty array; "" for none. */
  function JoinLines(lines: seq<string>): (r: string)
    ensures |lines| > 0 ==> |lines[0]| <= |r| && r[..|lines[0]|] == lines[0]
  {
    if |lines| == 0 then ""
    else if |lines| == 1 then lines[0]
    else lines[0] + "\n" + JoinLines(lines[1..])
  }

  /** The pieces of `s` between newlines, in order. */
  function SplitLines(s: string): (r: seq<string>)
    decreases |s|
  {
    var k := FirstIndex(s, '\n');
    if k == |s| then [s] else [s[..k]] + SplitLines(s[k + 1..])
  }

  predicate NoNewline(s: string)
  {
    forall i | 0 <= i < |s| :: s[i] != '\n'
  }

  /** Joining newline-free lines and splitting the result gives the lines back. */
  lemma {:induction false} SplitJoin(lines: seq<string>)
    requires |lines| > 0
    requires forall j | 0 <= j < |lines| :: NoNewline(lines[j])
    ensures SplitLines(JoinLines(lines)) == lines
  {
    var a := lines[0];
    if |lines| == 1 {
      assert FirstIndex(a, '\n') == |a|;
    } else {
      var rest := JoinLines(lines[1..]);
      var s := a + "\n" + rest;
      assert s[|a|] == '\n';
      var k := FirstIndex(s, '\n');
      assert k == |a|;
      assert s[..k] == a;
      assert s[k + 1..] == rest;
      SplitJoin(lines[1..]);
      assert lines == [a] + lines[1..];
    }
  }

  // ---------------------------------------------------------------------------
  // formatLogsForPrompt

  function OutcomePhrase(succeeded: bool): string
  {
    if succeeded then SuccessPhrase else FailurePhrase
  }

  /** The part of a line before the feeling. */
  function LineHead(day: int): string
  {
    LinePrefix + IntToDecimal(day) + FeelingOpen
  }

  /** One transcript line for one log. */
  function FormatLog(log: LogEntry): string
  {
    LineHead(log.day) + log.feeling + TriggerOpen + log.trigger + OutcomeOpen + OutcomePhrase(log.succeeded)
  }

  /** The lines of the transcript, one per log, in log order. */
  function LogLines(logs: seq<LogEntry>): (lines: seq<string>)
    ensures |lines| == |logs|
    ensures forall i | 0 <= i < |logs| :: lines[i] == FormatLog(logs[i])
  {
    seq(|logs|, i requires 0 <= i < |logs| => FormatLog(logs[i]))
  }

  /** The transcript embedded in every prompt; the fixed text exactly when there are no logs. */
  function FormatLogsForPrompt(logs: seq<LogEntry>): (r: string)
    ensures r == NoLogsText <==> |logs| == 0
  {
    if |logs| == 0 then NoLogsText
    else
      var r := JoinLines(LogLines(logs));
      assert r[..|FormatLog(logs[0])|] == FormatLog(logs[0]);
      assert r[0] == '-' != NoLogsText[0];
      r
  }

  /** With newline-free fields, the transcript splits back into exactly one
      line per log, in log order. */
  lemma TranscriptLines(logs: seq<LogEntry>)
    requires |logs| > 0
    requires forall i | 0 <= i < |logs| :: NoNewline(logs[i].feeling) && NoNewline(logs[i].trigger)
    ensures SplitLines(FormatLogsForPrompt(logs)) == LogLines(logs)
  {
    var lines := LogLines(logs);
    forall j | 0 <= j < |lines| ensures NoNewline(lines[j]) {
      var l := logs[j];
      var d := IntToDecimal(l.day);
      IntToDecimalChars(l.day);
      assert lines[j] == LinePrefix + d + FeelingOpen + l.feeling + TriggerOpen + l.trigger
                         + OutcomeOpen + OutcomePhrase(l.succeeded);
    }
    SplitJoin(lines);
  }

  /** Reads the day back from a transcript line: the numeral between the line
      prefix and the first ':' after it. */
  function LineDay(line: string): Option<int>
  {
    if |line| >= |LinePrefix| && line[..|LinePrefix|] == LinePrefix then
      var rest := line[|LinePrefix|..];
      ParseInt(rest[..FirstIndex(rest, ':')])
    else None
  }

  function EndsWith(s: string, suffix: string): bool
  {
    |suffix| <= |s| && s[|s| - |suffix|..] == suffix
  }

  /** Where the pieces of a line built as `x + d + a + f + t + g + o + p` sit. */
  lemma LineShape(x: string, d: string, a: string, f: string, t: string, g: string, o: string, p: string)
    ensures var line := x + d + a + f + t + g + o + p;
      && |x| + |d| + |a| + |f| + |t| + |g| + |o| + |p| == |line|
      && line[..|x|] == x
      && line[|x|..] == d + (a + f + t + g + o + p)
      && line[|x| + |d| + |a|..][..|f|] == f
      && line[|x| + |d| + |a| + |f| + |t|..][..|g|] == g
      && line[|line| - |p|..] == p
  {
  }

  /** The first `c` in `d + y` is the head of `y` when `d` has none. */
  lemma FirstIndexAfter(d: string, y: string, c: char)
    requires forall i | 0 <= i < |d| :: d[i] != c
    requires |y| > 0 && y[0] == c
    ensures FirstIndex(d + y, c) == |d| && (d + y)[..|d|] == d
  {
    assert (d + y)[|d|] == c;
  }

  /** A line's day reads back as its log's day. */
  lemma LineDayOfFormatLog(log: LogEntry)
    ensures LineDay(FormatLog(log)) == Some(log.day)
  {
    var d := IntToDecimal(log.day);
    var p := OutcomePhrase(log.succeeded);
    LineShape(LinePrefix, d, FeelingOpen, log.feeling, TriggerOpen, log.trigger, OutcomeOpen, p);
    IntToDecimalChars(log.day);
    FirstIndexAfter(d, FeelingOpen + log.feeling + TriggerOpen + log.trigger + OutcomeOpen + p, ':');
    IntToDecimalRoundTrip(log.day);
  }

  /** A line quotes its log's feeling and trigger verbatim, at their places. */
  lemma FormatLogQuotesFields(log: LogEntry)
    ensures var k := |LineHead(log.day)|;
      FormatLog(log)[k..][..|log.feeling|] == log.feeling
    ensures var k := |LineHead(log.day)| + |log.feeling| + |TriggerOpen|;
      FormatLog(log)[k..][..|log.trigger|] == log.trigger
  {
    LineShape(LinePrefix, IntToDecimal(log.day), FeelingOpen, log.feeling,
              TriggerOpen, log.trigger, OutcomeOpen, OutcomePhrase(log.succeeded));
  }

  /** `x + p` does not end with `q` when their second-to-last characters differ. */
  lemma NotEndsWith(x: string, p: string, q: string)
    requires |p| >= 2 && |q| >= 2 && p[|p| - 2] != q[|q| - 2]
    ensures !EndsWith(x + p, q)
  {
  }

  /** A line ends with the phrase of its own outcome, and not with the other one. */
  lemma FormatLogOutcome(log: LogEntry)
    ensures EndsWith(FormatLog(log), OutcomePhrase(log.succeeded))
    ensures !EndsWith(FormatLog(log), OutcomePhrase(!log.succeeded))
  {
    var p := OutcomePhrase(log.succeeded);
    LineShape(LinePrefix, IntToDecimal(log.day), FeelingOpen, log.feeling, TriggerOpen, log.trigger, OutcomeOpen, p);
    var x := LinePrefix + IntToDecimal(log.day) + FeelingOpen + log.feeling + TriggerOpen + log.trigger + OutcomeOpen;
    NotEndsWith(x, p, OutcomePhrase(!log.succeeded));
  }

  // ---------------------------------------------------------------------------
  // Service outcomes and fallbacks

  /** Outcome of a free-text request: the reply text, or a failure (a thrown error). */
  datatype TextReply = Answered(text: string) | TextFailed

  /** Outcome of the alternatives request: the parsed JSON's `alternatives`
      field (absent or present), or a failure (a thrown error or unparsable text). */
  datatype AlternativesReply = Parsed(alternatives: Option<seq<string>>) | AlternativesFailed

  /** The trigger the suggestion is asked about: the latest log's, or the default. */
  function CommonTrigger(logs: seq<LogEntry>): (t: string)
    ensures |logs| == 0 ==> t == DefaultTrigger
    ensures |logs| > 0 ==> t == logs[|logs| - 1].trigger
  {
    if |logs| > 0 then logs[|logs| - 1].trigger else DefaultTrigger
  }

  /** After a new log the suggestion is asked about that log's trigger. */
  lemma CommonTriggerIsLatest(logs: seq<LogEntry>, log: LogEntry)
    ensures CommonTrigger(logs + [log]) == log.trigger
  {
  }

  /** analyzeJournal: the reply text, or the fixed apology on failure. */
  function AnalyzeJournal(reply: TextReply): (r: string)
    ensures reply.TextFailed? ==> r == InsightApology
    ensures reply.Answered? ==> r == reply.text
  {
    match reply
    case Answered(text) => text
    case TextFailed => InsightApology
  }

  /** getPersonalizedSuggestion: the reply text, or "take 3 deep breaths" on failure. */
  function GetPersonalizedSuggestion(reply: TextReply): (r: string)
    ensures reply.TextFailed? ==> r == SuggestionFallback
    ensures reply.Answered? ==> r == reply.text
  {
    match reply
    case Answered(text) => text
    case TextFailed => SuggestionFallback
  }

  /** getSurpriseTestAlternatives: a present `alternatives` field is used as is,
      even when empty (an empty array is truthy) and whatever its length; a
      missing field, a parse failure or a thrown error gives the 3-item fallback. */
  function GetSurpriseTestAlternatives(reply: AlternativesReply): (r: seq<string>)
    ensures reply.Parsed? && reply.alternatives.Some? ==> r == reply.alternatives.value
    ensures reply.AlternativesFailed? || reply.alternatives.None? ==> r == FallbackAlternatives && |r| == 3
  {
    match reply
    case Parsed(Some(alternatives)) => alternatives
    case Parsed(None) => FallbackAlternatives
    case AlternativesFailed => FallbackAlternatives
  }
}
