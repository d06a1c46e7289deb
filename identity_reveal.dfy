// The identity reveal: a typewriter that shows growing prefixes of a text,
// and a four-phase reveal sequence that starts two typewriters. Timers are
// abstracted into events: a typewriter's start delay elapsing and one tick
// of its interval, and one phase timer firing.

module IdentityReveal {

  const TitleText: string := "Strategic Navigator"
  const DescriptionText: string := "A leader who structures complexity and charts clear direction."

  /** Milliseconds per typed character. */
  const TitleSpeed: int := 60
  const DescriptionSpeed: int := 30

  /** Start delay of a typewriter whose phase has not come yet. */
  const NotYet: int := 99999

  /** `text.slice(0, i)`: the first `i` characters, or all of them when `i` runs past the end. */
  function Slice(text: string, i: nat): (r: string)
    ensures r <= text
    ensures |r| == if i < |text| then i else |text|
  {
    if i < |text| then text[..i] else text
  }

  /** Longer slices extend shorter ones. */
  lemma SliceGrows(text: string, i: nat, j: nat)
    requires i <= j
    ensures Slice(text, i) <= Slice(text, j)
  {
  }

  // ---------------------------------------------------------------- typewriter

  /** Where the typewriter's own timers stand. */
  datatype Stage =
    | Waiting   // the start delay is pending
    | Typing    // the interval is running
    | Finished  // the interval has been cleared

  /**
   * useTypewriter: the rendered state (`displayed`, `isDone`), the effect's
   * dependencies (`text`, `speed`, `startDelay`), and the interval's counter.
   */
  class Typewriter {
    var text: string
    var speed: int
    var startDelay: int
    var displayed: string
    var isDone: bool
    var stage: Stage
    var count: nat

    /**
     * `displayed` is always the slice the counter names; the counter is 0
     * before typing starts, and typing stops on the first tick that reaches
     * the end of the text (one tick for an empty text).
     */
    ghost predicate Valid()
      reads this
    {
      displayed == Slice(text, count) &&
      (stage == Waiting ==> count == 0) &&
      (stage == Typing ==> count == 0 || count < |text|) &&
      (stage == Finished ==> count == (if |text| == 0 then 1 else |text|)) &&
      (isDone <==> stage == Finished)
    }

    /** Mounting: empty state, and the effect's first run arms the start delay. */
    constructor (text: string, speed: int, startDelay: int)
      ensures Valid()
      ensures this.text == text && this.speed == speed && this.startDelay == startDelay
      ensures displayed == "" && !isDone && stage == Waiting
    {
      this.text, this.speed, this.startDelay := text, speed, startDelay;
      displayed, isDone := "", false;
      stage, count := Waiting, 0;
    }

    /**
     * A render with new arguments. When any dependency changed, the effect
     * reruns: the state is cleared and a fresh start delay is armed.
     * Otherwise nothing happens. This is the corrected cleanup, which also
     * stops an interval that is already running; the cleanup as written
     * stops only the start-delay timer (see `RerunAsWritten` and
     * `OrphanedIntervalOverwrites`).
     */
    method Configure(text: string, speed: int, startDelay: int)
      requires Valid()
      modifies this
      ensures Valid()
      ensures this.text == text && this.speed == speed && this.startDelay == startDelay
      ensures old(this.text) != text || old(this.speed) != speed || old(this.startDelay) != startDelay ==>
        displayed == "" && !isDone && stage == Waiting
      ensures old(this.text) == text && old(this.speed) == speed && old(this.startDelay) == startDelay ==>
        displayed == old(displayed) && isDone == old(isDone) && stage == old(stage) && count == old(count)
    {
      if this.text != text || this.speed != speed || this.startDelay != startDelay {
        this.text, this.speed, this.startDelay := text, speed, startDelay;
        displayed, isDone := "", false;
        stage, count := Waiting, 0;
      }
    }

    /** The start delay elapses: the counter starts at 0 and the interval starts. */
    method DelayElapsed()
      requires Valid()
      modifies this`stage, this`count
      ensures Valid()
      ensures old(stage) == Waiting ==> stage == Typing && count == 0
      ensures old(stage) != Waiting ==> stage == old(stage) && count == old(count)
    {
      if stage == Waiting {
        count := 0;
        stage := Typing;
      }
    }

    /**
     * One interval tick: the counter grows by one and `displayed` becomes
     * the slice it names; the tick that reaches the end of the text clears
     * the interval and marks the typewriter done.
     */
    method Tick()
      requires Valid()
      modifies this`count, this`displayed, this`isDone, this`stage
      ensures Valid()
      ensures old(stage) == Typing ==>
        count == old(count) + 1 && displayed == Slice(text, count) &&
        old(displayed) <= displayed &&
        (old(count) < |text| ==> |displayed| == |old(displayed)| + 1) &&
        (isDone <==> |text| <= count)
      ensures old(stage) != Typing ==>
        count == old(count) && displayed == old(displayed) && isDone == old(isDone) && stage == old(stage)
    {
      if stage == Typing {
        count := count + 1;
        displayed := Slice(text, count);
        if count >= |text| {
          stage := Finished;
          isDone := true;
        }
      }
    }
  }

  /** A finished typewriter shows its whole text. */
  lemma DoneShowsWholeText(t: Typewriter)
    requires t.Valid() && t.isDone
    ensures t.displayed == t.text
  {
  }

  /** An empty text finishes on the very first tick, still showing nothing. */
  method EmptyTextFinishesAtOnce(speed: int, startDelay: int) returns (t: Typewriter)
    ensures t.Valid() && t.isDone && t.displayed == "" && t.count == 1
  {
    t := new Typewriter("", speed, startDelay);
    t.DelayElapsed();
    t.Tick();
  }

  // ------------------------------------------------ the cleanup as written

  /** An interval started by an earlier run of the effect, with the text it captured and its counter. */
  datatype Interval = Interval(text: string, i: nat)

  /** The hook's state as the source leaves it, with every interval that is still running. */
  datatype HookState = HookState(text: string, displayed: string, isDone: bool, running: seq<Interval>)

  /**
   * The effect rerunning as written: its cleanup clears only the start-delay
   * timer (the interval's own cleanup is returned from the timer callback,
   * where nothing calls it), so every running interval keeps running.
   */
  function RerunAsWritten(h: HookState, text: string): (r: HookState)
    ensures r.running == h.running && r.displayed == "" && !r.isDone && r.text == text
  {
    HookState(text, "", false, h.running)
  }

  /** One tick of running interval `k`, as written: it writes a slice of the text it captured. */
  function TickAsWritten(h: HookState, k: nat): (r: HookState)
    requires k < |h.running|
    ensures r.displayed <= h.running[k].text && r.text == h.text
  {
    var iv := h.running[k];
    var i := iv.i + 1;
    if i >= |iv.text| then
      h.(displayed := Slice(iv.text, i), isDone := true, running := h.running[..k] + h.running[k + 1..])
    else
      h.(displayed := Slice(iv.text, i), running := h.running[k := Interval(iv.text, i)])
  }

  /**
   * Changing the text while "ab" is half typed: the orphaned interval's next
   * tick shows "ab" and marks the typewriter done, though "ab" is not a
   * prefix of the new text "xyz".
   */
  lemma OrphanedIntervalOverwrites()
    ensures var typing := HookState("ab", "a", false, [Interval("ab", 1)]);
      var after := TickAsWritten(RerunAsWritten(typing, "xyz"), 0);
      after.isDone && after.displayed == "ab" && !(after.displayed <= after.text)
  {
    var typing := HookState("ab", "a", false, [Interval("ab", 1)]);
    var rerun := RerunAsWritten(typing, "xyz");
    var after := TickAsWritten(rerun, 0);
    assert after.displayed == "ab";
    assert after.text == "xyz";
    assert after.displayed[0] != after.text[0];
  }

  // ---------------------------------------------------------------- the reveal

  datatype Phase = Dim | Particles | Card | Text

  /** Position of a phase in the reveal order. */
  function Rank(p: Phase): (r: nat)
    ensures r < 4
    ensures p == Dim <==> r == 0
  {
    match p
    case Dim => 0
    case Particles => 1
    case Card => 2
    case Text => 3
  }

  /** The phase the next timer moves to. */
  function Next(p: Phase): (q: Phase)
    requires p != Text
    ensures Rank(q) == Rank(p) + 1
  {
    match p
    case Dim => Particles
    case Particles => Card
    case Card => Text
  }

  /** Milliseconds after mounting at which the timer that enters phase `p` fires (0 for the initial phase). */
  function Entered(p: Phase): nat
  {
    match p
    case Dim => 0
    case Particles => 600
    case Card => 1200
    case Text => 2000
  }

  /** The later a phase comes in the order, the later its timer fires. */
  lemma EnteredInOrder(p: Phase, q: Phase)
    requires Rank(p) < Rank(q)
    ensures Entered(p) < Entered(q)
  {
  }

  /** The phase showing `t` milliseconds after mounting. */
  function PhaseAt(t: nat): (p: Phase)
    ensures Entered(p) <= t
    ensures p != Text ==> t < Entered(Next(p))
  {
    if t < 600 then Dim else if t < 1200 then Particles else if t < 2000 then Card else Text
  }

  /** The phase never moves backward as time passes. */
  lemma PhaseAtMonotone(t1: nat, t2: nat)
    requires t1 <= t2
    ensures Rank(PhaseAt(t1)) <= Rank(PhaseAt(t2))
  {
  }

  /** The title starts typing as soon as the text phase begins. */
  function TitleDelay(p: Phase): (d: int)
    ensures p == Text ==> d == 0
    ensures p != Text ==> d == NotYet
  {
    if p == Text then 0 else NotYet
  }

  /**
   * The description starts once the title has had time to type, plus a
   * 400 ms pause: 19 * 60 + 400 = 1540 ms into the text phase.
   */
  function DescriptionDelay(p: Phase): (d: int)
    ensures p == Text ==> d == 1540 && d == |TitleText| * TitleSpeed + 400
    ensures p != Text ==> d == NotYet
  {
    if p == Text then |TitleText| * TitleSpeed + 400 else NotYet
  }

  /** The reveal screen: its phase and the typewriters of its title and description. */
  class Reveal {
    var phase: Phase
    const title: Typewriter
    const description: Typewriter

    ghost predicate Valid()
      reads this, title, description
    {
      title != description &&
      title.Valid() && description.Valid() &&
      title.text == TitleText && title.speed == TitleSpeed && title.startDelay == TitleDelay(phase) &&
      description.text == DescriptionText && description.speed == DescriptionSpeed &&
      description.startDelay == DescriptionDelay(phase)
    }

    /** Mounting: the dim phase, both typewriters empty and held back. */
    constructor ()
      ensures Valid() && phase == Dim && fresh(title) && fresh(description)
      ensures title.displayed == "" && title.stage == Waiting
      ensures description.displayed == "" && description.stage == Waiting
    {
      phase := Dim;
      title := new Typewriter(TitleText, TitleSpeed, NotYet);
      description := new Typewriter(DescriptionText, DescriptionSpeed, NotYet);
    }

    /**
     * The next phase timer fires (at 600, 1200 and 2000 ms). Both typewriters
     * are rendered with the delays of the new phase; entering the text phase
     * changes those delays and so restarts both.
     */
    method AdvancePhase()
      requires Valid() && phase != Text
      modifies this, title, description
      ensures Valid()
      ensures phase == Next(old(phase)) && Rank(phase) == Rank(old(phase)) + 1
      ensures Entered(old(phase)) < Entered(phase)
      ensures phase == Text ==>
        title.displayed == "" && title.stage == Waiting &&
        description.displayed == "" && description.stage == Waiting
      ensures phase != Text ==>
        title.displayed == old(title.displayed) && title.stage == old(title.stage) &&
        description.displayed == old(description.displayed) && description.stage == old(description.stage)
    {
      phase := Next(phase);
      title.Configure(TitleText, TitleSpeed, TitleDelay(phase));
      description.Configure(DescriptionText, DescriptionSpeed, DescriptionDelay(phase));
    }

    /** The title's text as rendered: its typed prefix in the text phase, nothing before. */
    function ShownTitle(): (s: string)
      reads this, title, description
      requires Valid()
      ensures s <= TitleText
      ensures phase != Text ==> s == ""
    {
      if phase == Text then title.displayed else ""
    }

    /** The description's text as rendered: its typed prefix in the text phase, nothing before. */
    function ShownDescription(): (s: string)
      reads this, title, description
      requires Valid()
      ensures s <= DescriptionText
      ensures phase != Text ==> s == ""
    {
      if phase == Text then description.displayed else ""
    }

    /** The title's cursor shows exactly while the text phase shows only part of the title. */
    function TitleCursor(): (shown: bool)
      reads this, title, description
      requires Valid()
      ensures shown <==> phase == Text && ShownTitle() < TitleText
    {
      phase == Text && !title.isDone
    }

    /**
     * The description's cursor takes over once the title is done and lasts
     * until the description is done; the two cursors never show together.
     */
    function DescriptionCursor(): (shown: bool)
      reads this, title, description
      requires Valid()
      ensures shown <==> phase == Text && ShownTitle() == TitleText && ShownDescription() < DescriptionText
      ensures shown ==> !TitleCursor()
    {
      phase == Text && title.isDone && !description.isDone
    }
  }
}
