/** The sound-dispatch gate of `playRandomResourceByCategory`, in its two
    forms: the Template agent deduplicates (it remembers the last category
    it let through and refuses a repeat while a sound is playing), the
    Character agent lets every request through. */
module Playback {
  import opened Options
  import opened Commands

  datatype GatePolicy = Unconditional | Deduplicating

  /** The agent fields the gate reads and writes: `lastPhoneEventOccurred`
      (`None` while it is still `undefined`) and `lastPlaySoundTime`. */
  datatype GateState = GateState(last: Option<string>, lastPlaySoundTime: int)

  /** The gate fields after a call, and the commands the call issued. */
  datatype Outcome = Outcome(state: GateState, cmds: seq<Command>)

  /** The early return: same category as last time while a sound plays. */
  predicate Suppressed(policy: GatePolicy, last: Option<string>, category: string, playing: bool)
  {
    policy == Deduplicating && last == Some(category) && playing
  }

  /** One request to play a sound of `category` at time `now`; `sound` is
      what the resource store hands out for the category if it is asked. */
  function Gate(policy: GatePolicy, s: GateState, category: string, playing: bool,
                now: int, sound: Option<Resource>): (r: Outcome)
    ensures Suppressed(policy, s.last, category, playing) ==> r == Outcome(s, [])
    ensures r.cmds != [] <==> !Suppressed(policy, s.last, category, playing) && sound.Some?
    ensures r.cmds != [] ==> r.cmds == [Play(sound.value)] && r.state.lastPlaySoundTime == now
    ensures r.cmds == [] ==> r.state.lastPlaySoundTime == s.lastPlaySoundTime
    ensures policy == Deduplicating ==> r.state.last == Some(category)
    ensures policy == Unconditional ==> r.state.last == s.last && r.cmds == PlayFor(sound)
  {
    if Suppressed(policy, s.last, category, playing) then Outcome(s, [])
    else
      var last := if policy == Deduplicating then Some(category) else s.last;
      match sound
      case None => Outcome(GateState(last, s.lastPlaySoundTime), [])
      case Some(snd) => Outcome(GateState(last, now), [Play(snd)])
  }

  // ---------------------------------------------------------------------
  // Several requests in a row, as successive ticks or events make them.

  datatype Request = Request(category: string, playing: bool, now: int, sound: Option<Resource>)

  function Run(policy: GatePolicy, s: GateState, reqs: seq<Request>): Outcome
    decreases |reqs|
  {
    if reqs == [] then Outcome(s, [])
    else
      var first := Gate(policy, s, reqs[0].category, reqs[0].playing, reqs[0].now, reqs[0].sound);
      var rest := Run(policy, first.state, reqs[1..]);
      Outcome(rest.state, first.cmds + rest.cmds)
  }

  /** The number of requests for which the store has a sound. */
  function Found(reqs: seq<Request>): nat
    decreases |reqs|
  {
    if reqs == [] then 0 else (if reqs[0].sound.Some? then 1 else 0) + Found(reqs[1..])
  }

  predicate AllFor(reqs: seq<Request>, category: string)
  {
    forall i :: 0 <= i < |reqs| ==> reqs[i].category == category
  }

  predicate AllWhilePlaying(reqs: seq<Request>)
  {
    forall i :: 0 <= i < |reqs| ==> reqs[i].playing
  }

  /** Once a category got through, repeating it while sound plays changes
      nothing and plays nothing, however often it is repeated. */
  lemma {:induction false} RepeatsWhilePlayingAreSuppressed(s: GateState, category: string, reqs: seq<Request>)
    requires s.last == Some(category)
    requires AllFor(reqs, category) && AllWhilePlaying(reqs)
    ensures Run(Deduplicating, s, reqs) == Outcome(s, [])
    decreases |reqs|
  {
    if reqs != [] {
      assert AllFor(reqs[1..], category) && AllWhilePlaying(reqs[1..]) by {
        assert forall i :: 0 <= i < |reqs[1..]| ==> reqs[1..][i] == reqs[i + 1];
      }
      RepeatsWhilePlayingAreSuppressed(s, category, reqs[1..]);
    }
  }

  /** A burst of requests for one category while a sound keeps playing
      plays at most one sound (exactly one when the first request gets
      through and finds a sound); so two requests in a row while playing
      yield one dispatched sound. */
  lemma BurstPlaysOnce(s: GateState, category: string, reqs: seq<Request>)
    requires |reqs| > 0 && AllFor(reqs, category) && AllWhilePlaying(reqs[1..])
    ensures Count(Run(Deduplicating, s, reqs).cmds, IsPlay) <= 1
    ensures !Suppressed(Deduplicating, s.last, category, reqs[0].playing) && reqs[0].sound.Some? ==>
              Run(Deduplicating, s, reqs).cmds == [Play(reqs[0].sound.value)]
  {
    var first := Gate(Deduplicating, s, category, reqs[0].playing, reqs[0].now, reqs[0].sound);
    assert AllFor(reqs[1..], category) by {
      assert forall i :: 0 <= i < |reqs[1..]| ==> reqs[1..][i] == reqs[i + 1];
    }
    RepeatsWhilePlayingAreSuppressed(first.state, category, reqs[1..]);
    assert Run(Deduplicating, s, reqs) == Outcome(first.state, first.cmds + []);
    assert first.cmds + [] == first.cmds;
  }

  /** A request for a category other than the last one always gets
      through, whatever the playing flag says. */
  lemma SwitchingCategoryPlays(s: GateState, category: string, playing: bool, now: int, snd: Resource)
    requires s.last != Some(category)
    ensures Gate(Deduplicating, s, category, playing, now, Some(snd)) ==
            Outcome(GateState(Some(category), now), [Play(snd)])
  {
  }

  /** The unconditional gate plays every sound the store hands out and
      never touches the remembered category. */
  lemma {:induction false} UnconditionalPlaysEverySound(s: GateState, reqs: seq<Request>)
    ensures Count(Run(Unconditional, s, reqs).cmds, IsPlay) == Found(reqs)
    ensures |Run(Unconditional, s, reqs).cmds| == Found(reqs)
    ensures Run(Unconditional, s, reqs).state.last == s.last
    decreases |reqs|
  {
    if reqs != [] {
      var first := Gate(Unconditional, s, reqs[0].category, reqs[0].playing, reqs[0].now, reqs[0].sound);
      UnconditionalPlaysEverySound(first.state, reqs[1..]);
      CountAppend(first.cmds, Run(Unconditional, first.state, reqs[1..]).cmds, IsPlay);
    }
  }
}
