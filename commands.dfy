/** What the agent asks of the host's action manager, recorded in order.
    The agent's observable behaviour is the sequence of these commands. */
module Commands {
  import opened Options

  /** An image or sound handed out by the resource store. */
  datatype Resource = Resource(name: string)

  datatype Command =
    | Move(dx: int, dy: int, durationMs: int)   // actionManager.move
    | Draw(image: Resource, resizeRatio: real)  // actionManager.draw(image, ratio, false)
    | Play(sound: Resource)                     // actionManager.playSound
    | ShowMessage(text: string)                 // actionManager.showMessage
    | VerifyIdentity                            // restManager.verifyUserIdentity

  predicate IsMove(c: Command) { c.Move? }
  predicate IsDraw(c: Command) { c.Draw? }
  predicate IsPlay(c: Command) { c.Play? }

  /** The number of commands in `cmds` that satisfy `p`. */
  function Count(cmds: seq<Command>, p: Command -> bool): nat
    decreases |cmds|
  {
    if cmds == [] then 0
    else (if p(cmds[0]) then 1 else 0) + Count(cmds[1..], p)
  }

  lemma {:induction false} CountAppend(a: seq<Command>, b: seq<Command>, p: Command -> bool)
    ensures Count(a + b, p) == Count(a, p) + Count(b, p)
    decreases |a|
  {
    if a == [] {
      assert a + b == b;
    } else {
      assert (a + b)[0] == a[0];
      assert (a + b)[1..] == a[1..] + b;
      CountAppend(a[1..], b, p);
    }
  }

  /** The draw a lookup produces: `draw` is called only for a found image. */
  function DrawFor(image: Option<Resource>, resizeRatio: real): seq<Command>
  {
    if image.Some? then [Draw(image.value, resizeRatio)] else []
  }

  /** The play a lookup produces: `playSound` is called only for a found sound. */
  function PlayFor(sound: Option<Resource>): seq<Command>
  {
    if sound.Some? then [Play(sound.value)] else []
  }
}
