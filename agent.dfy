/** The agent class `AliveClass`. One class stands for the three variants in
    the repository; `variant` says which, and each handler follows that
    variant's code where they differ. Host readings, the random resource
    picks and the random sound roll are parameters of the handlers. */
module Agent {
  import opened Options
  import opened AgentConstants
  import opened Commands
  import opened Playback
  import opened Tilt
  import opened Gestures
  import opened Text
  import opened Behaviour
  import opened TickRecursion

  datatype Variant =
    | Template       // ActionResponseTemplate/app.ts
    | TemplateBuild  // ActionResponseTemplate/app.js, an older compiled build
    | Character      // ActionResponseCharacter/app.ts and its compiled app.js

  /** The Character agent plays unconditionally; both Template builds
      deduplicate. */
  function PolicyOf(variant: Variant): GatePolicy
  {
    if variant == Character then Unconditional else Deduplicating
  }

  class AliveClass {
    const variant: Variant
    var lastPhoneEventOccurred: Option<string>
    var currentTime: int
    var lastPlaySoundTime: int
    var resizeRatio: real
    /** Every command issued so far, oldest first. */
    var log: seq<Command>

    /** `resizeRatio` and `lastPhoneEventOccurred` are `undefined` until
        `onStart`; the ratio is given a placeholder value here. */
    constructor (variant: Variant)
      ensures this.variant == variant
      ensures lastPhoneEventOccurred == None && resizeRatio == 0.0 && log == []
      ensures currentTime == 0 && lastPlaySoundTime == 0
    {
      this.variant := variant;
      lastPhoneEventOccurred := None;
      currentTime := 0;
      lastPlaySoundTime := 0;
      resizeRatio := 0.0;
      log := [];
    }

    function Policy(): GatePolicy { PolicyOf(variant) }

    /** The fields the sound gate reads and writes. */
    function GateView(): GateState
      reads this
    {
      GateState(lastPhoneEventOccurred, lastPlaySoundTime)
    }

    method DrawRandomResourceByCategory(category: string, sel: Selector)
      modifies this`log
      ensures log == old(log) + DrawFor(sel.image(category), resizeRatio)
    {
      var image := sel.image(category);
      if image.Some? {
        log := log + [Draw(image.value, resizeRatio)];
      }
    }

    method PlayRandomResourceByCategory(category: string, host: Host, sel: Selector)
      modifies this`lastPhoneEventOccurred, this`lastPlaySoundTime, this`log
      ensures var o := Gate(Policy(), old(GateView()), category, host.soundPlaying, currentTime, sel.sound(category));
              GateView() == o.state && log == old(log) + o.cmds
    {
      if Policy() == Deduplicating {
        if lastPhoneEventOccurred == Some(category) && host.soundPlaying {
          return;
        }
        lastPhoneEventOccurred := Some(category);
      }
      var sound := sel.sound(category);
      if sound.Some? {
        lastPlaySoundTime := currentTime;
        log := log + [Play(sound.value)];
      }
    }

    method DrawAndPlayRandomResourceByCategory(category: string, host: Host, sel: Selector)
      modifies this`lastPhoneEventOccurred, this`lastPlaySoundTime, this`log
      ensures var o := DrawAndPlay(Policy(), old(GateView()), category, host.soundPlaying, currentTime, resizeRatio, sel);
              GateView() == o.state && log == old(log) + o.cmds
    {
      DrawRandomResourceByCategory(category, sel);
      PlayRandomResourceByCategory(category, host, sel);
    }

    method ReactToSurfaceChange(host: Host, soundRoll: bool, sel: Selector)
      modifies this`lastPhoneEventOccurred, this`lastPlaySoundTime, this`log
      ensures var o := React(Policy(), old(GateView()), host, soundRoll, currentTime, resizeRatio, sel);
              GateView() == o.state && log == old(log) + o.cmds
    {
      var r := Classify(host.orientation, host.angle);
      if r.speed != UNREGISTERED_CATEGORY_RESOURCE {
        DrawRandomResourceByCategory(r.category, sel);
        if soundRoll {
          PlayRandomResourceByCategory(r.category, host, sel);
        }
        log := log + [Move(r.speed, 0, STEP_MS)];
      } else {
        DrawRandomResourceByCategory(CHARACTER_ACTIVATION, sel);
      }
    }

    /** Activation: the Template builds forget the last category, every
        variant puts the character at the bottom of the screen and then
        draws and plays the activation category. The activation sound is
        never suppressed: the Template builds have just reset the category
        they compare with, and the Character agent does not compare. */
    method OnStart(host: Host, sel: Selector)
      modifies this`lastPhoneEventOccurred, this`lastPlaySoundTime, this`resizeRatio, this`log
      ensures resizeRatio == host.maxResizeRatio
      ensures lastPhoneEventOccurred ==
                if variant == Character then old(lastPhoneEventOccurred) else Some(CHARACTER_ACTIVATION)
      ensures lastPlaySoundTime ==
                if sel.sound(CHARACTER_ACTIVATION).Some? then currentTime else old(lastPlaySoundTime)
      ensures log == old(log) + [Move(0, host.screenHeight, 0)]
                     + DrawFor(sel.image(CHARACTER_ACTIVATION), host.maxResizeRatio)
                     + PlayFor(sel.sound(CHARACTER_ACTIVATION))
    {
      if variant != Character {
        lastPhoneEventOccurred := Some("");
      }
      log := log + [Move(0, host.screenHeight, 0)];
      resizeRatio := host.maxResizeRatio;
      DrawAndPlayRandomResourceByCategory(CHARACTER_ACTIVATION, host, sel);
    }

    /** A tick reacts to the tilt unless the character is being dragged or
        the screen is off, and then records the tick's time. The sound the
        reaction may play is stamped with the previous tick's time. */
    method OnTick(time: int, host: Host, soundRoll: bool, sel: Selector)
      modifies this`lastPhoneEventOccurred, this`lastPlaySoundTime, this`currentTime, this`log
      ensures currentTime == time
      ensures var o := if TickReacts(host)
                       then React(Policy(), old(GateView()), host, soundRoll, old(currentTime), resizeRatio, sel)
                       else Outcome(old(GateView()), []);
              GateView() == o.state && log == old(log) + o.cmds
    {
      if !host.dragged && !host.screenOff {
        ReactToSurfaceChange(host, soundRoll, sel);
      }
      currentTime := time;
    }

    method OnBackgroundTick(time: int, host: Host, soundRoll: bool, sel: Selector)
      modifies this`lastPhoneEventOccurred, this`lastPlaySoundTime, this`currentTime, this`log
      ensures currentTime == time
      ensures var o := if TickReacts(host)
                       then React(Policy(), old(GateView()), host, soundRoll, old(currentTime), resizeRatio, sel)
                       else Outcome(old(GateView()), []);
              GateView() == o.state && log == old(log) + o.cmds
    {
      OnTick(time, host, soundRoll, sel);
    }

    /** A phone event draws and plays its own name as a category. The
        current Template source then asks for identity verification when
        the name contains "SCREEN_OFF"; the older build instead announces
        the event first. */
    method OnPhoneEventOccurred(eventName: string, host: Host, sel: Selector)
      requires variant != Character
      modifies this`lastPhoneEventOccurred, this`lastPlaySoundTime, this`log
      ensures var o := DrawAndPlay(Policy(), old(GateView()), eventName, host.soundPlaying, currentTime, resizeRatio, sel);
              && GateView() == o.state
              && log == old(log)
                        + (if variant == TemplateBuild then [ShowMessage(eventName + " received")] else [])
                        + o.cmds
                        + (if variant == Template && IndexOf(eventName, "SCREEN_OFF") != -1 then [VerifyIdentity] else [])
    {
      if variant == TemplateBuild {
        log := log + [ShowMessage(eventName + " received")];
      }
      DrawAndPlayRandomResourceByCategory(eventName, host, sel);
      if variant == Template && IndexOf(eventName, "SCREEN_OFF") != -1 {
        log := log + [VerifyIdentity];
      }
    }

    /** The Character agent's event handler: announce, then draw and play. */
    method OnActionReceived(categoryName: string, host: Host, sel: Selector)
      requires variant == Character
      modifies this`lastPhoneEventOccurred, this`lastPlaySoundTime, this`log
      ensures var o := DrawAndPlay(Policy(), old(GateView()), categoryName, host.soundPlaying, currentTime, resizeRatio, sel);
              GateView() == o.state && log == old(log) + [ShowMessage(categoryName + " received")] + o.cmds
    {
      log := log + [ShowMessage(categoryName + " received")];
      DrawAndPlayRandomResourceByCategory(categoryName, host, sel);
    }

    method OnMove(oldX: int, oldY: int, newX: int, newY: int, host: Host, sel: Selector)
      modifies this`lastPhoneEventOccurred, this`lastPlaySoundTime, this`log
      ensures var o := DrawAndPlay(Policy(), old(GateView()), DragDirection(oldX, oldY, newX, newY),
                                   host.soundPlaying, currentTime, resizeRatio, sel);
              GateView() == o.state && log == old(log) + o.cmds
    {
      var xDiff := Abs(oldX - newX);
      var yDiff := Abs(oldY - newY);
      if xDiff > yDiff {
        if newX > oldX {
          DrawAndPlayRandomResourceByCategory(ON_MOVE_RIGHT, host, sel);
        } else {
          DrawAndPlayRandomResourceByCategory(ON_MOVE_LEFT, host, sel);
        }
      } else {
        if newY > oldY {
          DrawAndPlayRandomResourceByCategory(ON_MOVE_DOWN, host, sel);
        } else {
          DrawAndPlayRandomResourceByCategory(ON_MOVE_UP, host, sel);
        }
      }
    }

    /** A release draws and plays the release category, then moves the
        character back to `RELEASE_MARGIN` above the bottom edge exactly
        when it was released higher than that. */
    method OnRelease(currentX: int, currentY: int, host: Host, sel: Selector)
      modifies this`lastPhoneEventOccurred, this`lastPlaySoundTime, this`log
      ensures var o := DrawAndPlay(Policy(), old(GateView()), ON_RELEASE, host.soundPlaying, currentTime, resizeRatio, sel);
              && GateView() == o.state
              && log == old(log) + o.cmds
                        + (if SnapsBack(currentY, host.screenHeight)
                           then [Move(0, host.screenHeight - RELEASE_MARGIN, STEP_MS)] else [])
    {
      DrawAndPlayRandomResourceByCategory(ON_RELEASE, host, sel);
      var screenHeight := host.screenHeight;
      if currentY < screenHeight - RELEASE_MARGIN {
        log := log + [Move(0, screenHeight - RELEASE_MARGIN, STEP_MS)];
      }
    }

    method OnPick(currentX: int, currentY: int, host: Host, sel: Selector)
      modifies this`lastPhoneEventOccurred, this`lastPlaySoundTime, this`log
      ensures var o := DrawAndPlay(Policy(), old(GateView()), ON_PICK, host.soundPlaying, currentTime, resizeRatio, sel);
              GateView() == o.state && log == old(log) + o.cmds
    {
      DrawAndPlayRandomResourceByCategory(ON_PICK, host, sel);
    }

    /** The reply to an earlier HTTP request is shown as a message. */
    method OnResponseReceived(response: string)
      modifies this`log
      ensures log == old(log) + [ShowMessage(response)]
    {
      log := log + [ShowMessage(response)];
    }
  }
}
