/** The loading screen: a progress value kept within `[0, 100]`, its caption, and three animated dots. */
module LoadingScreen {
  import opened Wrappers

  /** Frames between two changes of the dots. */
  const DotSpeed: int := 30
  /** The dots cycle through 0, 1, 2 and 3. */
  const DotStates: int := 4
  const MinProgress: int := 0
  const MaxProgress: int := 100

  /** `max(0, min(100, p))`. */
  function Clamped(p: int): (r: int)
    ensures MinProgress <= r <= MaxProgress
    ensures MinProgress <= p <= MaxProgress ==> r == p
    ensures p < MinProgress ==> r == MinProgress
    ensures p > MaxProgress ==> r == MaxProgress
  {
    var m := if MaxProgress < p then MaxProgress else p;
    if MinProgress > m then MinProgress else m
  }

  /** One frame of the dot animation on `(dots, dot_timer)`. */
  function Tick(dots: int, timer: int): (int, int) {
    var timer := timer + 1;
    if timer >= DotSpeed then ((dots + 1) % DotStates, 0) else (dots, timer)
  }

  /** The dot animation over `n` frames. */
  function Ticks(dots: int, timer: int, n: nat): (int, int)
    decreases n
  {
    if n == 0 then (dots, timer) else var (d, t) := Tick(dots, timer); Ticks(d, t, n - 1)
  }

  /** From a valid animation state, one frame keeps the dots within `[0, 3]` and the timer within `[0, 30)`. */
  lemma TickInRange(dots: int, timer: int)
    requires 0 <= dots < DotStates && 0 <= timer < DotSpeed
    ensures var (d, t) := Tick(dots, timer); 0 <= d < DotStates && 0 <= t < DotSpeed
    ensures var (d, t) := Tick(dots, timer); (t == 0) == (timer == DotSpeed - 1) && (t != 0 ==> d == dots && t == timer + 1)
  {
  }

  /**
   * Starting from no dots and a fresh timer, after `n` frames the timer is
   * `n mod 30` and the dots are `(n div 30) mod 4`: so they always stay in
   * range.
   */
  lemma {:induction false} TicksClosedForm(n: nat)
    ensures Ticks(0, 0, n) == ((n / DotSpeed) % DotStates, n % DotSpeed)
    ensures var (d, t) := Ticks(0, 0, n); 0 <= d < DotStates && 0 <= t < DotSpeed
  {
    var i := 0;
    var st := (0, 0);
    while i < n
      invariant 0 <= i <= n
      invariant st == ((i / DotSpeed) % DotStates, i % DotSpeed)
      invariant Ticks(0, 0, n) == Ticks(st.0, st.1, n - i)
    {
      StepClosedForm(i);
      st := Tick(st.0, st.1);
      i := i + 1;
    }
  }

  lemma StepClosedForm(i: nat)
    ensures Tick((i / DotSpeed) % DotStates, i % DotSpeed) == (((i + 1) / DotSpeed) % DotStates, (i + 1) % DotSpeed)
  {
    var q, r := i / DotSpeed, i % DotSpeed;
    assert i == q * DotSpeed + r;
    if r + 1 == DotSpeed {
      assert i + 1 == (q + 1) * DotSpeed;
      assert (i + 1) / DotSpeed == q + 1 && (i + 1) % DotSpeed == 0;
      assert ((q % DotStates) + 1) % DotStates == (q + 1) % DotStates;
    } else {
      assert i + 1 == q * DotSpeed + (r + 1);
      assert (i + 1) / DotSpeed == q && (i + 1) % DotSpeed == r + 1;
    }
  }

  class LoadingScreen {
    const screenWidth: int
    const screenHeight: int
    var dots: int
    var dotTimer: int
    var progress: int
    var progressText: string

    /** No dots, a fresh timer, no progress, and the caption "Loading...". */
    constructor (screenWidth: int, screenHeight: int)
      ensures dots == 0 && dotTimer == 0 && progress == 0 && progressText == "Loading..."
    {
      this.screenWidth := screenWidth;
      this.screenHeight := screenHeight;
      dots := 0;
      dotTimer := 0;
      progress := 0;
      progressText := "Loading...";
    }

    /** `set_progress(progress, text)`: the clamped value, and a new caption only when a non-empty text is given. */
    method SetProgress(p: int, text: Option<string>)
      modifies this`progress, this`progressText
      ensures progress == Clamped(p)
      ensures progressText == (if text.Some? && text.value != "" then text.value else old(progressText))
    {
      var m := if MaxProgress < p then MaxProgress else p;
      progress := if MinProgress > m then MinProgress else m;
      if text.Some? && text.value != "" {
        progressText := text.value;
      }
    }

    method Update()
      modifies this`dots, this`dotTimer
      ensures (dots, dotTimer) == Tick(old(dots), old(dotTimer))
    {
      dotTimer := dotTimer + 1;
      if dotTimer >= DotSpeed {
        dotTimer := 0;
        dots := (dots + 1) % DotStates;
      }
    }
  }
}
