/** What the agent's handlers issue, as functions of the host readings and
    of the gate fields before the call. The class in module Agent is proved
    to issue exactly these commands. */
module Behaviour {
  import opened Options
  import opened AgentConstants
  import opened Commands
  import opened Playback
  import opened Tilt
  import opened Gestures

  /** The host readings a handler consults through the configuration and
      character managers. */
  datatype Host = Host(
    orientation: Orientation,  // getScreenOrientation
    angle: int,                // getCurrentSurfaceAngle
    dragged: bool,             // isCharacterBeingDragged
    screenOff: bool,           // isScreenOff / getIsScreenOff
    soundPlaying: bool,        // isSoundPlaying
    screenHeight: int,         // getScreenHeight
    maxResizeRatio: real)      // getMaximalResizeRatio

  /** The answers of `ResourceManagerHelper.chooseRandomImage` and
      `chooseRandomSound` during one handler call, per category. */
  datatype Selector = Selector(image: string -> Option<Resource>, sound: string -> Option<Resource>)

  /** `drawAndPlayRandomResourceByCategory`: a draw for the category, then
      the gated play. */
  function DrawAndPlay(policy: GatePolicy, s: GateState, category: string, playing: bool,
                       now: int, resizeRatio: real, sel: Selector): Outcome
  {
    var g := Gate(policy, s, category, playing, now, sel.sound(category));
    Outcome(g.state, DrawFor(sel.image(category), resizeRatio) + g.cmds)
  }

  /** `reactToSurfaceChange`; `soundRoll` stands for `Math.random() > 0.8`. */
  function React(policy: GatePolicy, s: GateState, host: Host, soundRoll: bool,
                 now: int, resizeRatio: real, sel: Selector): Outcome
  {
    var c := Classify(host.orientation, host.angle);
    if Matched(c) then
      var g := if soundRoll then Gate(policy, s, c.category, host.soundPlaying, now, sel.sound(c.category))
               else Outcome(s, []);
      Outcome(g.state, DrawFor(sel.image(c.category), resizeRatio) + g.cmds + [Move(c.speed, 0, STEP_MS)])
    else
      Outcome(s, DrawFor(sel.image(CHARACTER_ACTIVATION), resizeRatio))
  }

  /** A draw-and-play issues no move, draws the category's image when there
      is one, and plays the category's sound exactly when the gate lets the
      request through and a sound is found. */
  lemma DrawAndPlayShape(policy: GatePolicy, s: GateState, category: string, playing: bool,
                         now: int, resizeRatio: real, sel: Selector)
    ensures var r := DrawAndPlay(policy, s, category, playing, now, resizeRatio, sel);
            && Count(r.cmds, IsMove) == 0
            && Count(r.cmds, IsDraw) == (if sel.image(category).Some? then 1 else 0)
            && Count(r.cmds, IsPlay) <= 1
            && (Count(r.cmds, IsPlay) == 1 <==>
                  !Suppressed(policy, s.last, category, playing) && sel.sound(category).Some?)
            && (forall i :: 0 <= i < |r.cmds| ==> r.cmds[i].Draw? || r.cmds[i].Play?)
            && (forall i :: 0 <= i < |r.cmds| && r.cmds[i].Draw? ==>
                  sel.image(category).Some? && r.cmds[i] == Draw(sel.image(category).value, resizeRatio))
            && (forall i :: 0 <= i < |r.cmds| && r.cmds[i].Play? ==>
                  sel.sound(category).Some? && r.cmds[i] == Play(sel.sound(category).value))
  {
    var g := Gate(policy, s, category, playing, now, sel.sound(category));
    var d := DrawFor(sel.image(category), resizeRatio);
    CountAppend(d, g.cmds, IsMove);
    CountAppend(d, g.cmds, IsDraw);
    CountAppend(d, g.cmds, IsPlay);
    assert d == [] || d[1..] == [];
    assert g.cmds == [] || g.cmds[1..] == [];
  }

  /** A matched reading draws the category's image (if it has one), plays
      the category's sound exactly when the roll allows it, the gate lets it
      through and a sound is found, and ends with the one move by the
      band's speed, which is never the sentinel. */
  lemma ReactOnMatch(policy: GatePolicy, s: GateState, host: Host, soundRoll: bool,
                     now: int, resizeRatio: real, sel: Selector)
    requires Matched(Classify(host.orientation, host.angle))
    ensures var c := Classify(host.orientation, host.angle);
            var r := React(policy, s, host, soundRoll, now, resizeRatio, sel);
            && |r.cmds| > 0
            && r.cmds[|r.cmds| - 1] == Move(c.speed, 0, STEP_MS)
            && c.speed != UNREGISTERED_CATEGORY_RESOURCE && 0 < Abs(c.speed) < 60
            && Count(r.cmds, IsMove) == 1
            && Count(r.cmds, IsDraw) == (if sel.image(c.category).Some? then 1 else 0)
            && Count(r.cmds, IsPlay) <= 1
            && (Count(r.cmds, IsPlay) == 1 <==>
                  soundRoll && !Suppressed(policy, s.last, c.category, host.soundPlaying) && sel.sound(c.category).Some?)
            && (forall i :: 0 <= i < |r.cmds| && r.cmds[i].Draw? ==>
                  sel.image(c.category).Some? && r.cmds[i] == Draw(sel.image(c.category).value, resizeRatio))
            && (forall i :: 0 <= i < |r.cmds| && r.cmds[i].Play? ==>
                  sel.sound(c.category).Some? && r.cmds[i] == Play(sel.sound(c.category).value))
            && (!soundRoll ==> r.state == s)
  {
    var c := Classify(host.orientation, host.angle);
    var g := if soundRoll then Gate(policy, s, c.category, host.soundPlaying, now, sel.sound(c.category))
             else Outcome(s, []);
    var d := DrawFor(sel.image(c.category), resizeRatio);
    var m := [Move(c.speed, 0, STEP_MS)];
    forall p: Command -> bool
      ensures Count(d + g.cmds + m, p) == Count(d, p) + Count(g.cmds, p) + Count(m, p)
    {
      CountAppend(d + g.cmds, m, p);
      CountAppend(d, g.cmds, p);
    }
    assert m[1..] == [] && (d == [] || d[1..] == []);
    assert g.cmds == [] || g.cmds[1..] == [];
  }

  /** An unmatched reading only draws the activation image: no move, no
      play, and the gate fields stay as they were. */
  lemma ReactOnNoMatch(policy: GatePolicy, s: GateState, host: Host, soundRoll: bool,
                       now: int, resizeRatio: real, sel: Selector)
    requires !Matched(Classify(host.orientation, host.angle))
    ensures var r := React(policy, s, host, soundRoll, now, resizeRatio, sel);
            && r == Outcome(s, DrawFor(sel.image(CHARACTER_ACTIVATION), resizeRatio))
            && Count(r.cmds, IsMove) == 0 && Count(r.cmds, IsPlay) == 0
  {
  }
}
