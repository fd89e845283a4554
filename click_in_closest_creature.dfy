/**
 * The closest-creature attack task: skip while a target is already held,
 * confirm by "is attacking some creature", and attack either with the attack
 * hotkey or, when the scene is ambiguous, with an alt-held click on the
 * closest creature.
 */
module ClickInClosestCreature {
  import opened Wrappers
  import opened Perception
  import opened InputActuator

  /**
   * The decision rule: a direct alt-click is used when some player is visible,
   * or else when targeting reports ignorable creatures. Players are looked at
   * first, so `ng_targeting` is not consulted when they are present; a missing
   * `ng_targeting` counts as "no ignorable creatures".
   */
  predicate UsesDirectClick(ctx: Context) {
    |ctx.gameWindow.players| > 0
    || (ctx.targeting.Some? && ctx.targeting.value.hasIgnorableCreatures)
  }

  /** The context carries what the chosen branch reads: the closest creature, for a click. */
  predicate CanAttack(ctx: Context) {
    UsesDirectClick(ctx) ==> ctx.cave.closestCreature.Some?
  }

  /** The input events one `do` issues. */
  function AttackEvents(ctx: Context): seq<Event>
    requires CanAttack(ctx)
  {
    if UsesDirectClick(ctx) then
      [KeyDown("alt"), LeftClick(ctx.cave.closestCreature.value.windowCoordinate), KeyUp("alt")]
    else
      [Press("space")]
  }

  class ClickInClosestCreatureTask {
    var name: string
    /** Milliseconds the runner may wait for `Did` to confirm the attack. */
    var delayOfTimeout: int

    constructor ()
      ensures name == "clickInClosestCreature"
      ensures delayOfTimeout == 1000
    {
      name := "clickInClosestCreature";
      delayOfTimeout := 1000;
    }

    /** Skipped exactly when a target creature is already held. */
    function ShouldIgnore(ctx: Context): (ignore: bool)
      ensures ignore <==> ctx.cave.targetCreature.Some?
    {
      ctx.cave.targetCreature.Some?
    }

    /** Confirmed exactly when the cave reports an attack in progress. */
    function Did(ctx: Context): (done: bool)
      ensures done == ctx.cave.isAttackingSomeCreature
    {
      ctx.cave.isAttackingSomeCreature
    }

    method Do(ctx: Context, io: Actuator) returns (next: Context)
      requires CanAttack(ctx)
      modifies io
      ensures next == ctx
      ensures io.trace == old(io.trace) + AttackEvents(ctx)
    {
      if UsesDirectClick(ctx) {
        io.KeyDown("alt");
        io.LeftClick(ctx.cave.closestCreature.value.windowCoordinate);
        io.KeyUp("alt");
      } else {
        io.Press("space");
      }
      next := ctx;
    }
  }

  /** The alt-click seen by spies: alt down once, one click on the closest creature, alt up once, no key press. */
  predicate IsAltClickOn(events: seq<Event>, at: Point) {
    && CallsTo(events, KeyDownFn) == [KeyDown("alt")]
    && CallsTo(events, LeftClickFn) == [LeftClick(at)]
    && CallsTo(events, KeyUpFn) == [KeyUp("alt")]
    && CallsTo(events, PressFn) == []
  }

  /** The hotkey attack seen by spies: `space` pressed once and nothing else. */
  predicate IsSpacePress(events: seq<Event>) {
    && CallsTo(events, PressFn) == [Press("space")]
    && CallsTo(events, KeyDownFn) == []
    && CallsTo(events, LeftClickFn) == []
    && CallsTo(events, KeyUpFn) == []
  }

  lemma AltClickSpied(at: Point)
    ensures IsAltClickOn([KeyDown("alt"), LeftClick(at), KeyUp("alt")], at)
  {
    CallsToThree(KeyDown("alt"), LeftClick(at), KeyUp("alt"), KeyDownFn);
    CallsToThree(KeyDown("alt"), LeftClick(at), KeyUp("alt"), LeftClickFn);
    CallsToThree(KeyDown("alt"), LeftClick(at), KeyUp("alt"), KeyUpFn);
    CallsToThree(KeyDown("alt"), LeftClick(at), KeyUp("alt"), PressFn);
  }

  /** With a player visible the task alt-clicks the closest creature, whatever `ng_targeting` says or whether it exists. */
  lemma DoWithPlayersAltClicks(ctx: Context, targeting: Option<Targeting>)
    requires |ctx.gameWindow.players| > 0
    requires ctx.cave.closestCreature.Some?
    ensures CanAttack(ctx.(targeting := targeting))
    ensures AttackEvents(ctx.(targeting := targeting)) == AttackEvents(ctx)
    ensures IsAltClickOn(AttackEvents(ctx), ctx.cave.closestCreature.value.windowCoordinate)
  {
    AltClickSpied(ctx.cave.closestCreature.value.windowCoordinate);
  }

  /** With no player but ignorable creatures around, the task alt-clicks the closest creature too. */
  lemma DoWithIgnorableCreaturesAltClicks(ctx: Context)
    requires |ctx.gameWindow.players| == 0
    requires ctx.targeting == Some(Targeting(true))
    requires ctx.cave.closestCreature.Some?
    ensures IsAltClickOn(AttackEvents(ctx), ctx.cave.closestCreature.value.windowCoordinate)
  {
    AltClickSpied(ctx.cave.closestCreature.value.windowCoordinate);
  }

  /** With no player and no ignorable creature, the task presses `space` once and clicks nothing. */
  lemma DoOtherwisePressesSpace(ctx: Context)
    requires |ctx.gameWindow.players| == 0
    requires ctx.targeting.None? || !ctx.targeting.value.hasIgnorableCreatures
    ensures CanAttack(ctx)
    ensures IsSpacePress(AttackEvents(ctx))
  {
  }

  /**
   * Every `do` is one intention: exactly one click or exactly one press, never
   * both and never nothing; the click happens precisely when the rule asks for
   * it, and alt is released as often as it is held.
   */
  lemma AttackIsOneIntention(ctx: Context)
    requires CanAttack(ctx)
    ensures var e := AttackEvents(ctx);
      && |CallsTo(e, LeftClickFn)| + |CallsTo(e, PressFn)| == 1
      && (CallsTo(e, LeftClickFn) != [] <==> UsesDirectClick(ctx))
      && |CallsTo(e, KeyDownFn)| == |CallsTo(e, KeyUpFn)|
  {
    if UsesDirectClick(ctx) {
      AltClickSpied(ctx.cave.closestCreature.value.windowCoordinate);
    }
  }
}
