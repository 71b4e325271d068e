/** `Dust.emitter(interval, particleFunction)`: an object with a `playing`
    flag and the two closures `play` and `stop`, which start and clear an
    interval timer that calls `particleFunction` again and again. The host's
    timers are not part of the model: what is kept is the flag, the number
    of live interval timers the emitter has started and not cleared, and
    the number of calls of `particleFunction` it has made. */
module Emitting {

  /** The emitter as seen from outside: whether it is playing, how many of
      the interval timers it started are still live, and how many times it
      has called `particleFunction`. */
  datatype EmitterState = EmitterState(playing: bool, timers: nat, calls: nat)

  /** A fresh emitter: not playing, no timer, no call yet. */
  const INITIAL: EmitterState := EmitterState(false, 0, 0)

  /** The emitter's timer runs exactly while it is playing, and there is
      never more than one. */
  predicate OneTimer(s: EmitterState) {
    s.timers == if s.playing then 1 else 0
  }

  /** `play()`: when not playing, calls `particleFunction` once, starts an
      interval timer and sets `playing`; when already playing, nothing. */
  function PlayStep(s: EmitterState): (r: EmitterState)
    ensures r.playing
    ensures s.playing ==> r == s
    ensures !s.playing ==> r.calls == s.calls + 1 && r.timers == s.timers + 1
  {
    if s.playing then s else EmitterState(true, s.timers + 1, s.calls + 1)
  }

  /** `stop()`: when playing, clears the timer and resets `playing`; when
      not playing, nothing. It never calls `particleFunction`. */
  function StopStep(s: EmitterState): (r: EmitterState)
    ensures !r.playing && r.calls == s.calls
    ensures !s.playing ==> r == s
    ensures s.playing && 0 < s.timers ==> r.timers == s.timers - 1
  {
    if !s.playing then s
    else EmitterState(false, if s.timers > 0 then s.timers - 1 else 0, s.calls)
  }

  /** One period of the host's clock: every live interval timer fires and
      runs `emitParticle`, which calls `particleFunction`. */
  function Tick(s: EmitterState): (r: EmitterState)
    ensures r.playing == s.playing && r.timers == s.timers
    ensures r.calls == s.calls + s.timers
  {
    s.(calls := s.calls + s.timers)
  }

  /** What can happen to an emitter: a call of `play`, a call of `stop`,
      or a period of the clock. */
  datatype Event = Play | Stop | Period

  /** The state after one event. Only `play` starts the emitter, only
      `stop` halts it, and no event takes back a call already made. */
  function Apply(s: EmitterState, e: Event): (r: EmitterState)
    ensures r.playing <==> e == Play || (e == Period && s.playing)
    ensures s.calls <= r.calls
  {
    match e
    case Play => PlayStep(s)
    case Stop => StopStep(s)
    case Period => Tick(s)
  }

  /** The state after the events `es`, in order. */
  function Run(s: EmitterState, es: seq<Event>): (r: EmitterState)
    ensures s.calls <= r.calls
    ensures OneTimer(s) && !s.playing && NoPlay(es) ==> !r.playing && r.calls == s.calls
    decreases |es|
  {
    if es == [] then s else Run(Apply(s, es[0]), es[1..])
  }

  /** Every event keeps the single-timer invariant. */
  lemma ApplyKeepsOneTimer(s: EmitterState, e: Event)
    requires OneTimer(s)
    ensures OneTimer(Apply(s, e))
  {
  }

  /** Whatever `play`, `stop` and clock periods happen, the emitter never
      has more than one live timer, and has one exactly while playing: a
      second `play` does not start a second timer, and `stop` leaves no
      timer behind. */
  lemma {:induction false} RunKeepsOneTimer(s: EmitterState, es: seq<Event>)
    requires OneTimer(s)
    ensures OneTimer(Run(s, es))
    ensures Run(s, es).timers <= 1
    decreases |es|
  {
    if es != [] {
      ApplyKeepsOneTimer(s, es[0]);
      RunKeepsOneTimer(Apply(s, es[0]), es[1..]);
    }
  }

  /** Calling `play` twice in a row is calling it once; so is `stop`. */
  lemma PlayStopIdempotent(s: EmitterState)
    ensures PlayStep(PlayStep(s)) == PlayStep(s)
    ensures StopStep(StopStep(s)) == StopStep(s)
  {
  }

  /** Events that contain no `play`. */
  predicate NoPlay(es: seq<Event>) {
    forall k :: 0 <= k < |es| ==> es[k] != Play
  }

  /** Once stopped, an emitter makes no call of `particleFunction` until it
      is played again, however many clock periods pass. */
  lemma {:induction false} SilentAfterStop(s: EmitterState, es: seq<Event>)
    requires OneTimer(s) && NoPlay(es)
    ensures Run(StopStep(s), es).calls == s.calls
    ensures !Run(StopStep(s), es).playing
    decreases |es|
  {
    if es != [] {
      var t := StopStep(s);
      assert Apply(t, es[0]) == t;
      assert Run(t, es) == Run(t, es[1..]);
      assert NoPlay(es[1..]) by {
        forall k | 0 <= k < |es[1..]| ensures es[1..][k] != Play {
          assert es[1..][k] == es[k + 1];
        }
      }
      SilentAfterStop(s, es[1..]);
    }
  }

  /** While playing, each clock period calls `particleFunction` exactly
      once. */
  lemma {:induction false} OneCallPerPeriod(s: EmitterState, n: nat)
    requires OneTimer(s) && s.playing
    ensures Run(s, seq(n, _ => Period)).calls == s.calls + n
    ensures Run(s, seq(n, _ => Period)).playing
    ensures OneTimer(Run(s, seq(n, _ => Period)))
    decreases n
  {
    if n > 0 {
      var es := seq(n, _ => Period);
      assert es[0] == Period && es[1..] == seq(n - 1, _ => Period);
      OneCallPerPeriod(Tick(s), n - 1);
    }
  }

  /** The object `emitter` returns, with the state its closures share. */
  class Emitter {
    const interval: int
    var playing: bool
    var timers: nat
    var calls: nat

    function State(): EmitterState
      reads this
    {
      EmitterState(playing, timers, calls)
    }

    /** `emitter(interval, particleFunction)`: `playing` starts false and
        `timerInterval` undefined. */
    constructor (interval: int)
      ensures State() == INITIAL && this.interval == interval
    {
      this.interval := interval;
      playing, timers, calls := false, 0, 0;
    }

    /** `play()`. */
    method Play()
      modifies this
      ensures State() == PlayStep(old(State()))
    {
      if !playing {
        calls := calls + 1;
        timers := timers + 1;
        playing := true;
      }
    }

    /** `stop()`. */
    method Stop()
      modifies this
      ensures State() == StopStep(old(State()))
    {
      if playing {
        if timers > 0 {
          timers := timers - 1;
        }
        playing := false;
      }
    }

    /** `emitParticle()`, the function the interval timer runs. */
    method EmitParticle()
      modifies this
      ensures State() == old(State()).(calls := old(calls) + 1)
    {
      calls := calls + 1;
    }
  }
}
