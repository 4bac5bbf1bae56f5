/**
  The invitation audio's start guard (`startInviteAudio`), reduced to its two
  flags. A call is split at its `await`: `Begin` is the guard and the raising
  of `isStarting`; `Finish` is what runs once `play()` settles, with the
  settlement (`true` for resolved, `false` for rejected) as an input.
 */
module InviteAudio {

  datatype AudioState = AudioState(hasStarted: bool, isStarting: bool)

  /** The flags as the page loads. */
  const Initial := AudioState(false, false)

  /** The state after the synchronous part of a call, and whether it went on to call `play()`. */
  datatype Begun = Begun(state: AudioState, playRequested: bool)

  /**
    The guard and the flag raised before the `await`. A call made while a start
    is in flight or after one succeeded changes nothing and requests no
    playback; any other call requests playback and marks a start in flight.
   */
  function Begin(s: AudioState): (b: Begun)
    ensures b.playRequested <==> !s.hasStarted && !s.isStarting
    ensures !b.playRequested ==> b.state == s
    ensures b.playRequested ==> b.state.isStarting && b.state.hasStarted == s.hasStarted
  {
    if s.hasStarted || s.isStarting then Begun(s, false)
    else Begun(s.(isStarting := true), true)
  }

  /**
    The `try`/`catch`/`finally` after `play()` settles: the start is no longer in
    flight, and playback counts as started exactly when `play()` resolved.
   */
  function Finish(s: AudioState, success: bool): (s': AudioState)
    ensures !s'.isStarting
    ensures s'.hasStarted <==> success
  {
    var s1 := if success then s.(hasStarted := true) else s.(hasStarted := false);
    s1.(isStarting := false)
  }

  /** The three phases the two flags encode. */
  datatype Phase = Idle | Starting | Playing

  /** Flag combinations the handlers can reach: never `hasStarted` and `isStarting` both set. */
  predicate Reachable(s: AudioState) {
    !(s.hasStarted && s.isStarting)
  }

  function PhaseOf(s: AudioState): Phase
    requires Reachable(s)
  {
    if s.isStarting then Starting else if s.hasStarted then Playing else Idle
  }

  /** The flags that encode a phase; `PhaseOf` is its inverse. */
  function FlagsOf(p: Phase): (s: AudioState)
    ensures Reachable(s) && PhaseOf(s) == p
  {
    match p
    case Idle => AudioState(false, false)
    case Starting => AudioState(false, true)
    case Playing => AudioState(true, false)
  }

  /** Reachable flags are exactly the encodings of the three phases. */
  lemma PhaseEncodingBijective(s: AudioState)
    requires Reachable(s)
    ensures FlagsOf(PhaseOf(s)) == s
  {
  }

  /** The reference transition for an "open invite" gesture: only `Idle` moves, to `Starting`. */
  function OnGesture(p: Phase): Phase {
    if p == Idle then Starting else p
  }

  /** The reference transition when the pending `play()` settles: resolved to `Playing`, rejected back to `Idle`. */
  function OnSettled(success: bool): Phase {
    if success then Playing else Idle
  }

  /** `Begin` follows the reference table, and requests playback only from `Idle`. */
  lemma BeginFollowsTable(s: AudioState)
    requires Reachable(s)
    ensures Reachable(Begin(s).state)
    ensures PhaseOf(Begin(s).state) == OnGesture(PhaseOf(s))
    ensures Begin(s).playRequested <==> PhaseOf(s) == Idle
  {
  }

  /** `Finish` of a start in flight follows the reference table. */
  lemma FinishFollowsTable(s: AudioState, success: bool)
    requires Reachable(s) && PhaseOf(s) == Starting
    ensures Reachable(Finish(s, success))
    ensures PhaseOf(Finish(s, success)) == OnSettled(success)
  {
  }

  /** After a rejection a new gesture requests playback again. */
  lemma RetryAfterFailure(s: AudioState)
    requires Begin(s).playRequested
    ensures Begin(Finish(Begin(s).state, false)).playRequested
  {
  }

  /** After a success no gesture ever requests playback again, and none changes the flags. */
  lemma NoRestartAfterSuccess(s: AudioState)
    requires Begin(s).playRequested
    ensures !Begin(Finish(Begin(s).state, true)).playRequested
    ensures Begin(Finish(Begin(s).state, true)).state == Finish(Begin(s).state, true)
  {
  }

  /**
    What can happen to the page, in any interleaving: an "open invite" gesture
    (a call of `startInviteAudio`), or the pending `play()` promise settling.
   */
  datatype Event = Click | Settle(success: bool)

  /**
    The flags together with how many `play()` calls were made, how many of
    them have settled, and how many resolved.
   */
  datatype Session = Session(state: AudioState, attempts: nat, settled: nat, resolved: nat)

  /** The page as it loads: no call made yet. */
  const Loaded := Session(Initial, 0, 0, 0)

  /**
    One event. A gesture runs `Begin` and, if it requests playback, counts a
    `play()` call. A settlement runs `Finish`; a promise is pending exactly
    while `isStarting` is set (raised just before `play()`, cleared in the
    `finally`), so a settlement with no start in flight is not an event of
    the page and leaves everything as it is.
   */
  function Step(ss: Session, e: Event): (r: Session)
    ensures e.Click? ==> r.state == Begin(ss.state).state && r.settled == ss.settled && r.resolved == ss.resolved
    ensures e.Click? ==> r.attempts == ss.attempts + (if Begin(ss.state).playRequested then 1 else 0)
    ensures e.Settle? && ss.state.isStarting ==>
      && r.state == Finish(ss.state, e.success) && r.attempts == ss.attempts
      && r.settled == ss.settled + 1 && r.resolved == ss.resolved + (if e.success then 1 else 0)
    ensures e.Settle? && !ss.state.isStarting ==> r == ss
  {
    match e
    case Click =>
      var b := Begin(ss.state);
      if b.playRequested then ss.(state := b.state, attempts := ss.attempts + 1) else ss
    case Settle(ok) =>
      if ss.state.isStarting then
        Session(Finish(ss.state, ok), ss.attempts, ss.settled + 1, ss.resolved + if ok then 1 else 0)
      else ss
  }

  /** Events one after another: counts only grow, and each event makes at most one `play()` call and settles at most one. */
  function Run(ss: Session, events: seq<Event>): (r: Session)
    ensures ss.attempts <= r.attempts <= ss.attempts + |events|
    ensures ss.settled <= r.settled <= ss.settled + |events|
    ensures ss.resolved <= r.resolved
    decreases |events|
  {
    if events == [] then ss else Run(Step(ss, events[0]), events[1..])
  }

  /**
    The bookkeeping every reachable session keeps: the flags are reachable,
    every `play()` call but the one in flight (if `isStarting`) has settled,
    at most one call ever resolved, and playback has started exactly when one did.
   */
  predicate Accounted(ss: Session) {
    && Reachable(ss.state)
    && ss.attempts == ss.settled + (if ss.state.isStarting then 1 else 0)
    && ss.resolved <= 1
    && (ss.state.hasStarted <==> ss.resolved == 1)
  }

  /** Each event keeps the bookkeeping, and does nothing at all once playback has started. */
  lemma StepKeepsAccounted(ss: Session, e: Event)
    requires Accounted(ss)
    ensures Accounted(Step(ss, e))
    ensures Step(ss, e).attempts <= ss.attempts + 1
    ensures ss.state.hasStarted ==> Step(ss, e) == ss
  {
  }

  /**
    For every interleaving of gestures and settlements: at most one `play()`
    is in flight, at most one ever resolves, and once one has resolved no
    later event calls `play()` or changes anything.
   */
  lemma {:induction false} RunKeepsAccounted(ss: Session, events: seq<Event>)
    requires Accounted(ss)
    ensures Accounted(Run(ss, events))
    ensures Run(ss, events).attempts <= Run(ss, events).settled + 1
    ensures ss.state.hasStarted ==> Run(ss, events) == ss
    decreases |events|
  {
    if events != [] {
      StepKeepsAccounted(ss, events[0]);
      RunKeepsAccounted(Step(ss, events[0]), events[1..]);
    }
  }

  /** Running two stretches of events is running their concatenation. */
  lemma {:induction false} RunConcat(ss: Session, first: seq<Event>, second: seq<Event>)
    ensures Run(ss, first + second) == Run(Run(ss, first), second)
    decreases |first|
  {
    if first == [] {
      assert first + second == second;
    } else {
      assert (first + second)[0] == first[0];
      assert (first + second)[1..] == first[1..] + second;
      RunConcat(Step(ss, first[0]), first[1..], second);
    }
  }

  /**
    Exactly-once start under any interleaving: from load, whatever events
    happen, if a `play()` call has resolved after `before` then the events
    `after` call `play()` no more and change nothing; and at any point at most
    one call is in flight and at most one has resolved.
   */
  lemma NoPlayAfterResolve(before: seq<Event>, after: seq<Event>)
    ensures Run(Loaded, before).attempts <= Run(Loaded, before).settled + 1
    ensures Run(Loaded, before).resolved <= 1
    ensures Run(Loaded, before).resolved == 1 ==> Run(Loaded, before + after) == Run(Loaded, before)
  {
    RunKeepsAccounted(Loaded, before);
    RunKeepsAccounted(Run(Loaded, before), after);
    RunConcat(Loaded, before, after);
  }

  /** Gestures one after another, each one's `play()` (if any) settling with `outcomes[k]` before the next gesture. */
  function Serialized(outcomes: seq<bool>): seq<Event>
    decreases |outcomes|
  {
    if outcomes == [] then [] else [Click, Settle(outcomes[0])] + Serialized(outcomes[1..])
  }

  /**
    Retry until success on serialized gestures: from an idle page, every
    gesture calls `play()` until the first one that resolves, and none after
    it. Playback has started at the end exactly when some attempt resolved,
    and no start is left in flight.
   */
  lemma {:induction false} RunFromIdle(a: nat, outcomes: seq<bool>)
    ensures var r := Run(Session(Initial, a, a, 0), Serialized(outcomes));
      && !r.state.isStarting
      && (r.state.hasStarted <==> true in outcomes)
      && a <= r.attempts <= a + |outcomes|
      && (true !in outcomes ==> r.attempts == a + |outcomes|)
      && (true in outcomes ==> var k := r.attempts - a;
            1 <= k && outcomes[k - 1] && true !in outcomes[..k - 1])
    decreases |outcomes|
  {
    if outcomes != [] {
      var ss := Session(Initial, a, a, 0);
      var pair := [Click, Settle(outcomes[0])];
      RunConcat(ss, pair, Serialized(outcomes[1..]));
      var clicked := Step(ss, Click);
      assert pair[1..] == [Settle(outcomes[0])] && [Settle(outcomes[0])][1..] == [];
      var next := Run(ss, pair);
      assert pair[0] == Click;
      assert next == Run(clicked, [Settle(outcomes[0])]);
      assert next == Run(Step(clicked, Settle(outcomes[0])), []);
      if outcomes[0] {
        assert next == Session(AudioState(true, false), a + 1, a + 1, 1);
        RunKeepsAccounted(next, Serialized(outcomes[1..]));
        assert outcomes[..0] == [];
      } else {
        assert next == Session(Initial, a + 1, a + 1, 0);
        RunFromIdle(a + 1, outcomes[1..]);
        var r := Run(next, Serialized(outcomes[1..]));
        assert true in outcomes <==> true in outcomes[1..];
        if true in outcomes {
          var k := r.attempts - a;
          assert outcomes[..k - 1] == [outcomes[0]] + outcomes[1..][..k - 2];
        }
      }
    }
  }
}
