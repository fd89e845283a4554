/**
 * The chat-off task: skipped unless the chat recogniser sees the chat on, and
 * acting by pressing `enter`, which toggles the chat.
 */
module SetChatOff {
  import opened Perception
  import opened InputActuator

  class SetChatOffTask {
    var name: string
    /** Milliseconds waited before `Do`. */
    var delayBeforeStart: int
    /** Milliseconds waited after `Do`. */
    var delayAfterComplete: int

    constructor ()
      ensures name == "setChatOff"
      ensures delayBeforeStart == 500 && delayAfterComplete == 500
    {
      name := "setChatOff";
      delayBeforeStart := 500;
      delayAfterComplete := 500;
    }

    /**
     * Skipped exactly when the chat is off, as the recogniser reads it from
     * `ng_screenshot`. The recogniser's first component is not used.
     */
    function ShouldIgnore<P>(ctx: Context, getChatStatus: Image -> (P, bool)): (ignore: bool)
      ensures ignore <==> !getChatStatus(ctx.screenshot).1
    {
      var (_, chatIsOn) := getChatStatus(ctx.screenshot);
      !chatIsOn
    }

    /** Presses `enter` once, without consulting the chat status, and hands the context on. */
    method Do(ctx: Context, io: Actuator) returns (next: Context)
      modifies io
      ensures next == ctx
      ensures io.trace == old(io.trace) + [Press("enter")]
    {
      io.Press("enter");
      next := ctx;
    }
  }

  /** `ShouldIgnore` depends on `ng_screenshot` alone: contexts that share it get the same answer. */
  lemma ShouldIgnoreReadsOnlyScreenshot<P>(task: SetChatOffTask, a: Context, b: Context, getChatStatus: Image -> (P, bool))
    requires a.screenshot == b.screenshot
    ensures task.ShouldIgnore(a, getChatStatus) == task.ShouldIgnore(b, getChatStatus)
  {
  }
}
