/**
  Pieces of the agent look's terminal widgets
  (front/src/components/AgentTerminal.tsx): the typewriter loading
  sequence, the command input, and the button's colour variants.
*/
module AgentTerminal {
  import opened Wrappers

  // ----- the loading sequence: a typewriter over a list of messages -----

  /** The messages shown when the caller passes none. */
  const DefaultMessages: seq<string> := ["正在连接卫星...", "分析地理数据...", "生成行动方案...", "任务准备完成"]

  /** The component's state: the message being typed, how much of it is typed, and the text on screen. */
  datatype Typewriter = Typewriter(currentIndex: nat, charIndex: nat, displayText: string)

  const Initial: Typewriter := Typewriter(0, 0, "")

  /** Every message has been typed out; from here on the effect only reports completion. */
  predicate Done(msgs: seq<string>, s: Typewriter) {
    s.currentIndex >= |msgs|
  }

  /**
    The states the sequence can be in: while a message is current, the
    screen shows the first `charIndex` characters of it; after the last one,
    the counters are at rest and the screen is empty.
  */
  predicate Inv(msgs: seq<string>, s: Typewriter) {
    && s.currentIndex <= |msgs|
    && (s.currentIndex < |msgs| ==>
          s.charIndex <= |msgs[s.currentIndex]| && s.displayText == msgs[s.currentIndex][..s.charIndex])
    && (s.currentIndex == |msgs| ==> s.charIndex == 0 && s.displayText == "")
  }

  /**
    One firing of the effect's timer: type the next character of the current
    message (after 50 ms), or, with the message complete, move to the next
    one with an empty screen (after 1000 ms). Once done, nothing changes.
  */
  function Step(msgs: seq<string>, s: Typewriter): Typewriter {
    if s.currentIndex < |msgs| then
      var m := msgs[s.currentIndex];
      if s.charIndex < |m| then
        Typewriter(s.currentIndex, s.charIndex + 1, m[..s.charIndex + 1])
      else
        Typewriter(s.currentIndex + 1, 0, "")
    else
      s
  }

  /** The delay, in milliseconds, of the timer that performs the next step. */
  function StepDelay(msgs: seq<string>, s: Typewriter): (d: nat)
    ensures d == 0 <==> Done(msgs, s)
  {
    if s.currentIndex < |msgs| && s.charIndex < |msgs[s.currentIndex]| then 50
    else if s.currentIndex < |msgs| then 1000
    else 0
  }

  /** Steps needed to type messages `i..` and move past each: one per character, one per message. */
  function StepsFrom(msgs: seq<string>, i: nat): nat
    decreases |msgs| - i
  {
    if i >= |msgs| then 0 else |msgs[i]| + 1 + StepsFrom(msgs, i + 1)
  }

  /** Milliseconds needed for messages `i..`: 50 per character, 1000 per message. */
  function TimeFrom(msgs: seq<string>, i: nat): nat
    decreases |msgs| - i
  {
    if i >= |msgs| then 0 else 50 * |msgs[i]| + 1000 + TimeFrom(msgs, i + 1)
  }

  /** Steps still to go from state `s`. */
  function Remaining(msgs: seq<string>, s: Typewriter): int {
    if s.currentIndex < |msgs| then StepsFrom(msgs, s.currentIndex) - s.charIndex else 0
  }

  /** Milliseconds still to go from state `s`. */
  function RemainingTime(msgs: seq<string>, s: Typewriter): int {
    if s.currentIndex < |msgs| then TimeFrom(msgs, s.currentIndex) - 50 * s.charIndex else 0
  }

  /** `n` timer firings from `s`. */
  function Run(msgs: seq<string>, s: Typewriter, n: nat): Typewriter
    decreases n
  {
    if n == 0 then s else Run(msgs, Step(msgs, s), n - 1)
  }

  /** The sequence starts in a legal state. */
  lemma InitialInv(msgs: seq<string>)
    ensures Inv(msgs, Initial)
    ensures Remaining(msgs, Initial) == StepsFrom(msgs, 0)
    ensures RemainingTime(msgs, Initial) == TimeFrom(msgs, 0)
  {
  }

  /** Unfinished work is left exactly while the sequence is not done. */
  lemma DoneIffNothingRemains(msgs: seq<string>, s: Typewriter)
    requires Inv(msgs, s)
    ensures Done(msgs, s) <==> Remaining(msgs, s) == 0
    ensures Remaining(msgs, s) >= 0 && RemainingTime(msgs, s) >= 0
  {
  }

  /**
    A step keeps the invariant, uses up exactly one remaining step and its
    own delay of the remaining time; once done, a step changes nothing.
  */
  lemma StepProgress(msgs: seq<string>, s: Typewriter)
    requires Inv(msgs, s)
    ensures Inv(msgs, Step(msgs, s))
    ensures !Done(msgs, s) ==> Remaining(msgs, Step(msgs, s)) == Remaining(msgs, s) - 1
    ensures !Done(msgs, s) ==> RemainingTime(msgs, Step(msgs, s)) == RemainingTime(msgs, s) - StepDelay(msgs, s)
    ensures Done(msgs, s) ==> Step(msgs, s) == s
  {
    if s.currentIndex < |msgs| {
      var m := msgs[s.currentIndex];
      var next := Step(msgs, s);
      if s.charIndex < |m| {
        assert next.displayText == m[..s.charIndex + 1];
        assert RemainingTime(msgs, next) == TimeFrom(msgs, s.currentIndex) - 50 * (s.charIndex + 1);
      } else {
        assert TimeFrom(msgs, s.currentIndex) == 50 * |m| + 1000 + TimeFrom(msgs, s.currentIndex + 1);
      }
    }
  }

  /** Running `n` steps, no more than remain, keeps the invariant and uses up `n` steps. */
  lemma {:induction false} RunProgress(msgs: seq<string>, s: Typewriter, n: nat)
    requires Inv(msgs, s) && n <= Remaining(msgs, s)
    ensures Inv(msgs, Run(msgs, s, n))
    ensures Remaining(msgs, Run(msgs, s, n)) == Remaining(msgs, s) - n
    decreases n
  {
    if n > 0 {
      DoneIffNothingRemains(msgs, s);
      StepProgress(msgs, s);
      RunProgress(msgs, Step(msgs, s), n - 1);
    }
  }

  /**
    From the start, the sequence is done after exactly one step per
    character plus one per message, and not a step earlier; with no
    messages it is done at once.
  */
  lemma FinishesAfterAllSteps(msgs: seq<string>, n: nat)
    ensures Done(msgs, Run(msgs, Initial, StepsFrom(msgs, 0)))
    ensures n < StepsFrom(msgs, 0) ==> !Done(msgs, Run(msgs, Initial, n))
    ensures msgs == [] ==> Done(msgs, Initial)
  {
    InitialInv(msgs);
    RunProgress(msgs, Initial, StepsFrom(msgs, 0));
    DoneIffNothingRemains(msgs, Run(msgs, Initial, StepsFrom(msgs, 0)));
    if n < StepsFrom(msgs, 0) {
      RunProgress(msgs, Initial, n);
      DoneIffNothingRemains(msgs, Run(msgs, Initial, n));
    }
  }

  /** The default messages take 37 steps and 5650 ms to play out. */
  lemma DefaultSequenceLength()
    ensures StepsFrom(DefaultMessages, 0) == 37
    ensures TimeFrom(DefaultMessages, 0) == 5650
  {
    var d := DefaultMessages;
    assert |d[0]| == 9 && |d[1]| == 9 && |d[2]| == 9 && |d[3]| == 6;
    assert StepsFrom(d, 3) == 7;
    assert TimeFrom(d, 3) == 1300;
  }

  // ----- the progress line under the typewriter -----

  /**
    `Math.round` of a non-negative rational `p / q`: the integer `r` with
    `r - 1/2 <= p/q < r + 1/2`, halves rounding up (both sides scaled by `2q`).
  */
  function RoundRatio(p: nat, q: nat): (r: nat)
    requires q > 0
    ensures (2 * r - 1) * q <= 2 * p < (2 * r + 1) * q
  {
    var r := (2 * p + q) / (2 * q);
    assert r * (2 * q) <= 2 * p + q < r * (2 * q) + 2 * q;
    r
  }

  /** Scaling both sides of an inequality by a positive factor. */
  lemma MulLess(a: int, b: int, c: int)
    requires c > 0
    ensures a < b <==> a * c < b * c
  {
    if a < b {
      assert b * c - a * c == (b - a) * c;
    } else {
      assert a * c - b * c == (a - b) * c;
    }
  }

  /** The progress line: `[shown/total] 进度: percent%`. The percent is absent when it is not a number (no messages). */
  datatype Progress = Progress(shown: int, total: int, percent: Option<int>)

  /** The progress line as the component renders it, counting from `currentIndex + 1`. */
  function ProgressAsWritten(msgs: seq<string>, s: Typewriter): (p: Progress)
    ensures p.shown == s.currentIndex + 1 && p.total == |msgs|
    ensures p.percent.Some? <==> |msgs| > 0
  {
    Progress(s.currentIndex + 1, |msgs|,
      if |msgs| > 0 then Some(RoundRatio(100 * (s.currentIndex + 1), |msgs|)) else None)
  }

  /** Once the default sequence completes, the line reads `[5/4]` and 125%. */
  lemma ProgressOverrunsWhenDone()
    ensures var s := Run(DefaultMessages, Initial, 37);
      && Done(DefaultMessages, s)
      && ProgressAsWritten(DefaultMessages, s) == Progress(5, 4, Some(125))
  {
    DefaultSequenceLength();
    FinishesAfterAllSteps(DefaultMessages, 0);
    InitialInv(DefaultMessages);
    RunProgress(DefaultMessages, Initial, 37);
  }

  /**
    The progress line with the shown position held at the last message once
    the sequence is done: it never passes 100%, reads 100% from the last
    message on, and (for fewer than 200 messages, where rounding cannot reach
    100 early) reads 100% only then.
  */
  function ProgressClamped(msgs: seq<string>, s: Typewriter): (p: Progress)
    requires Inv(msgs, s)
    ensures p.total == |msgs| && (|msgs| > 0 ==> 1 <= p.shown <= |msgs|)
    ensures p.percent.Some? <==> |msgs| > 0
    ensures p.percent.Some? ==> 0 <= p.percent.value <= 100
    ensures p.percent.Some? && s.currentIndex + 1 >= |msgs| ==> p.percent.value == 100
    ensures p.percent.Some? && |msgs| < 200 && p.percent.value == 100 ==> s.currentIndex + 1 >= |msgs|
  {
    var shown := if s.currentIndex < |msgs| then s.currentIndex + 1 else |msgs|;
    if |msgs| > 0 then
      PercentOfShown(shown, |msgs|);
      Progress(shown, |msgs|, Some(RoundRatio(100 * shown, |msgs|)))
    else
      Progress(shown, |msgs|, None)
  }

  /**
    The rounded percentage of `k` out of `n`, for `1 <= k <= n`, is at most
    100, is 100 at `k == n`, and below 100 for `k < n` when `n < 200`.
  */
  lemma PercentOfShown(k: nat, n: nat)
    requires 1 <= k <= n
    ensures RoundRatio(100 * k, n) <= 100
    ensures k == n ==> RoundRatio(100 * k, n) == 100
    ensures n < 200 && k < n ==> RoundRatio(100 * k, n) < 100
  {
    var r := RoundRatio(100 * k, n);
    assert (2 * r - 1) * n <= 200 * k < (2 * r + 1) * n;
    assert 200 * k <= 200 * n;
    MulLess(200, 2 * r + 1, n);
    if r > 100 {
      MulLess(200, 2 * r - 1, n);
    }
    if k == n {
      MulLess(2 * r - 1, 200, n);
    }
    if n < 200 && k < n {
      assert 200 * k <= 200 * n - 200 < 199 * n;
      MulLess(199, 2 * r - 1, n);
    }
  }

  /** Before completion the two progress lines agree. */
  lemma ProgressAgreesWhileRunning(msgs: seq<string>, s: Typewriter)
    requires Inv(msgs, s) && !Done(msgs, s)
    ensures ProgressClamped(msgs, s) == ProgressAsWritten(msgs, s)
  {
  }

  /** The component itself: the fixed messages and the typewriter state it updates. */
  class LoadingSequence {
    const messages: seq<string>
    var currentIndex: nat
    var charIndex: nat
    var displayText: string

    function State(): Typewriter
      reads this
    {
      Typewriter(currentIndex, charIndex, displayText)
    }

    /**
      The progress line under the typewriter, with the corrected count: never
      past the total or 100%, and reading `[n/n]` and 100% once done.
    */
    function ProgressLine(): (p: Progress)
      reads this
      requires Inv(messages, State())
      ensures p.total == |messages| && (p.percent.Some? ==> p.percent.value <= 100)
      ensures Done(messages, State()) && |messages| > 0 ==> p.shown == |messages| && p.percent == Some(100)
    {
      ProgressClamped(messages, State())
    }

    constructor (msgs: seq<string>)
      ensures messages == msgs && State() == Initial && Inv(messages, State())
    {
      messages := msgs;
      currentIndex := 0;
      charIndex := 0;
      displayText := "";
    }

    /**
      One run of the effect followed by its timer: returns whether
      `onComplete` was reported (every message typed), else performs the
      step the timer schedules.
    */
    method Tick() returns (completed: bool)
      requires Inv(messages, State())
      modifies this`currentIndex, this`charIndex, this`displayText
      ensures completed <==> Done(messages, old(State()))
      ensures State() == Step(messages, old(State()))
      ensures Inv(messages, State())
      ensures !completed ==> Remaining(messages, State()) == Remaining(messages, old(State())) - 1
    {
      StepProgress(messages, State());
      if currentIndex < |messages| {
        var currentMessage := messages[currentIndex];
        if charIndex < |currentMessage| {
          displayText := currentMessage[..charIndex + 1];
          charIndex := charIndex + 1;
        } else {
          currentIndex := currentIndex + 1;
          charIndex := 0;
          displayText := "";
        }
        completed := false;
      } else {
        completed := true;
      }
    }
  }

  // ----- the command input -----

  /**
    `TerminalInput`: its own copy of the text, seeded once from `value`, a
    blinking cursor, and the optional callbacks, recorded here as the
    sequences of values they were called with.
  */
  class TerminalInput {
    var inputValue: string
    var showCursor: bool
    const hasOnChange: bool
    const hasOnSubmit: bool
    var changes: seq<string>
    var submissions: seq<string>

    constructor (value: string, onChange: bool, onSubmit: bool)
      ensures inputValue == value && showCursor
      ensures hasOnChange == onChange && hasOnSubmit == onSubmit
      ensures changes == [] && submissions == []
    {
      inputValue := value;
      showCursor := true;
      hasOnChange := onChange;
      hasOnSubmit := onSubmit;
      changes := [];
      submissions := [];
    }

    /** `handleChange`: keep the new text and pass it to `onChange` when there is one. */
    method HandleChange(newValue: string)
      modifies this`inputValue, this`changes
      ensures inputValue == newValue
      ensures changes == if hasOnChange then old(changes) + [newValue] else old(changes)
    {
      inputValue := newValue;
      if hasOnChange {
        changes := changes + [newValue];
      }
    }

    /** `handleKeyPress`: Enter submits the current text when there is an `onSubmit`; other keys do nothing. */
    method HandleKeyPress(key: string)
      modifies this`submissions
      ensures submissions == if key == "Enter" && hasOnSubmit then old(submissions) + [inputValue] else old(submissions)
    {
      if key == "Enter" && hasOnSubmit {
        submissions := submissions + [inputValue];
      }
    }

    /** The 500 ms interval flips the cursor. */
    method Blink()
      modifies this`showCursor
      ensures showCursor == !old(showCursor)
    {
      showCursor := !showCursor;
    }
  }

  // ----- the button -----

  const PrimaryStyle: string := "bg-green-600 border-green-500 hover:bg-green-700"
  const DangerStyle: string := "bg-red-600 border-red-500 hover:bg-red-700"
  const WarningStyle: string := "bg-yellow-600 border-yellow-500 hover:bg-yellow-700"

  /** `getVariantStyles`: red for "danger", yellow for "warning", green for anything else. */
  function VariantStyles(variant: string): (s: string)
    ensures s == DangerStyle <==> variant == "danger"
    ensures s == WarningStyle <==> variant == "warning"
    ensures s == PrimaryStyle <==> variant != "danger" && variant != "warning"
  {
    if variant == "danger" then DangerStyle
    else if variant == "warning" then WarningStyle
    else PrimaryStyle
  }
}
