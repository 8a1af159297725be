/**
 * The interaction prompt (src/render/interactionPrompt.ts): a marker drawn
 * above an interaction point, shown while the player is within its radius.
 */
module InteractionPrompt {
  import opened Wrappers
  import opened Components
  import opened Hypot

  /** An axis-aligned rectangle `{ x, y, width, height }`. */
  datatype Rect = Rect(x: real, y: real, width: real, height: real)

  /**
   * An interaction point: a centre, a reach radius, how far above the
   * centre the prompt floats (absent means 0) and the object's rectangle.
   */
  datatype InteractionPoint =
    InteractionPoint(x: real, y: real, radius: real, offsetY: Option<real>, bounds: Rect)

  /**
   * The interaction record the game shares between the room loader, which
   * overwrites it field by field, and the prompt system, which reads it on
   * every tick.
   */
  class InteractionRecord {
    var x: real
    var y: real
    var radius: real
    var offsetY: Option<real>
    var bounds: Rect

    /** The record's current contents. */
    function Value(): InteractionPoint
      reads this
    {
      InteractionPoint(x, y, radius, offsetY, bounds)
    }

    constructor (p: InteractionPoint)
      ensures Value() == p
    {
      x, y, radius, offsetY, bounds := p.x, p.y, p.radius, p.offsetY, p.bounds;
    }
  }

  /** A prompt handle: where it is drawn and whether it is shown. */
  class Prompt {
    var x: real
    var y: real
    var visible: bool

    constructor ()
      ensures x == 0.0 && y == 0.0 && !visible
    {
      x, y, visible := 0.0, 0.0, false;
    }
  }

  /**
   * The prompt store: the prompt once created, and the prompts handed to
   * `addPrompt` (the scene), in order.
   */
  class PromptStore {
    var prompt: Option<Prompt>
    var attached: seq<Prompt>

    /** The prompt, once created, has been attached exactly once, and nothing else has. */
    ghost predicate Valid()
      reads this
    {
      attached == (if prompt.Some? then [prompt.value] else [])
    }

    /** The objects the prompt system may change: the prompt, if there is one. */
    function Current(): set<Prompt>
      reads this
    {
      if prompt.Some? then {prompt.value} else {}
    }

    constructor ()
      ensures Valid() && prompt == None
    {
      prompt, attached := None, [];
    }
  }

  /**
   * `ensurePrompt`: the stored prompt if there is one; otherwise a new prompt,
   * stored and attached.
   */
  method EnsurePrompt(store: PromptStore) returns (p: Prompt)
    requires store.Valid()
    modifies store
    ensures store.Valid() && store.prompt == Some(p)
    ensures old(store.prompt).Some? ==> p == old(store.prompt).value && store.attached == old(store.attached)
    ensures old(store.prompt).None? ==> fresh(p) && !p.visible
  {
    if store.prompt.Some? {
      return store.prompt.value;
    }
    p := new Prompt();
    store.prompt := Some(p);
    store.attached := store.attached + [p];
  }

  /**
   * The player at (px, py) is within reach of `point`, stated with squares:
   * the radius is not negative and the squared distance is at most its square.
   */
  ghost predicate WithinReach(px: real, py: real, point: InteractionPoint) {
    var dx, dy := px - point.x, py - point.y;
    point.radius >= 0.0 && dx * dx + dy * dy <= point.radius * point.radius
  }

  /**
   * `isWithinRange`: the distance `distance` (what `Math.hypot(dx, dy)`
   * returns) is at most the radius, boundary included; it holds exactly when
   * the player is within reach.
   */
  function IsWithinRange(px: real, py: real, point: InteractionPoint, distance: real): (r: bool)
    requires IsHypot(px - point.x, py - point.y, distance)
    ensures r <==> WithinReach(px, py, point)
  {
    var dx, dy := px - point.x, py - point.y;
    WithinBySquares(dx * dx + dy * dy, distance, point.radius);
    distance <= point.radius
  }

  /**
   * `createInteractionPromptSystem(player, store, interaction)(world, dt)`:
   * creates the prompt on the first tick, places it at the interaction
   * centre raised by `offsetY` (0 when absent), and shows it exactly while
   * the player is within reach. `distance` is `Math.hypot` of the player's
   * offset from the centre. The record is read as it is now, so the room
   * loader's in-place updates are seen on the next tick.
   */
  method InteractionPromptSystem(world: World, player: nat, store: PromptStore,
                                 interaction: InteractionRecord, distance: real)
    requires world.Valid() && player < world.Capacity() && store.Valid()
    requires IsHypot(world.posX[player] - interaction.x, world.posY[player] - interaction.y, distance)
    modifies store, store.Current()
    ensures store.Valid() && store.prompt.Some?
    ensures old(store.prompt).Some? ==> store.prompt == old(store.prompt) && store.attached == old(store.attached)
    ensures var p := store.prompt.value;
      && p.x == interaction.x
      && p.y == interaction.y - interaction.offsetY.GetOr(0.0)
      && (p.visible <==> WithinReach(world.posX[player], world.posY[player], interaction.Value()))
  {
    var prompt := EnsurePrompt(store);
    var point := interaction.Value();
    prompt.x := point.x;
    prompt.y := point.y - point.offsetY.GetOr(0.0);
    prompt.visible := IsWithinRange(world.posX[player], world.posY[player], point, distance);
  }

  /**
   * Against centre (10, 0) with radius 5, players at (0, 0), (8, 0) and
   * (30, 0) see the prompt hidden, shown and hidden, whatever lengths the
   * host reports for their offsets.
   */
  lemma PromptVisibilityExamples(d1: real, d2: real, d3: real)
    requires IsHypot(-10.0, 0.0, d1) && IsHypot(-2.0, 0.0, d2) && IsHypot(20.0, 0.0, d3)
    ensures var point := InteractionPoint(10.0, 0.0, 5.0, None, Rect(5.0, -5.0, 10.0, 10.0));
      && !IsWithinRange(0.0, 0.0, point, d1)
      && IsWithinRange(8.0, 0.0, point, d2)
      && !IsWithinRange(30.0, 0.0, point, d3)
  {
  }
}
