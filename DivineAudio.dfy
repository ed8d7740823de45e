/**
 * The ambient-sound session controller of `useDivineAudio`: a lazily created
 * audio context, one master gain node per session, the list of generator
 * nodes the current recipe handed back, one repeating timer, and the
 * `isPlaying` / `currentMood` state that consumers read.
 *
 * Nodes and timers are opaque handles (natural numbers handed out in
 * allocation order). A recipe is represented by what it hands back to the
 * controller: how many oscillators it returns for later stopping, how many
 * further continuous sources (LFOs, buzz oscillators, noise sources) it
 * starts without returning them, and whether it registers a repeating timer.
 */
module DivineAudio {
  import opened JsCore

  datatype MoodType =
    | Peaceful | Stressed | Sad | Angry | Anxious | Happy
    | Devotional | Powerful | Emotional | Divine

  datatype InstrumentType =
    | Om | Bells | Tanpura | Flute | Nature | Water | Wind | Chimes | MantraRhythm

  /** The string a MoodType is spelled as. */
  function MoodKey(m: MoodType): string {
    match m
    case Peaceful => "peaceful"
    case Stressed => "stressed"
    case Sad => "sad"
    case Angry => "angry"
    case Anxious => "anxious"
    case Happy => "happy"
    case Devotional => "devotional"
    case Powerful => "powerful"
    case Emotional => "emotional"
    case Divine => "divine"
  }

  /** No two moods are spelled alike. */
  lemma MoodKeyInjective(a: MoodType, b: MoodType)
    requires MoodKey(a) == MoodKey(b)
    ensures a == b
  {
  }

  /** The options object passed to `play`; every field may be left out. */
  datatype PlayOptions = PlayOptions(mood: Option<MoodType>, instrument: Option<InstrumentType>, volume: Option<real>)

  // ---------------------------------------------------------------------------
  // Recipes
  // ---------------------------------------------------------------------------

  /** The sound-building functions the controller can dispatch to. */
  datatype Recipe =
    | PeacefulSound | StressReliefSound | SadSound | AngryCalming | AnxiousRelief
    | HappySound | DevotionalSound | PowerfulSound | DivineSound | MantraRhythmSound
    | TempleBells | TanpuraDrone | FluteMelody | NatureSound | ChimesSound

  /** The instrument switch of `play`. */
  function InstrumentRecipe(i: InstrumentType): Recipe {
    match i
    case Om => DevotionalSound
    case Bells => TempleBells
    case Tanpura => TanpuraDrone
    case Flute => FluteMelody
    case Nature => NatureSound
    case Water => StressReliefSound
    case Wind => NatureSound
    case Chimes => ChimesSound
    case MantraRhythm => MantraRhythmSound
  }

  /** The mood switch of `play`. */
  function MoodRecipe(m: MoodType): Recipe {
    match m
    case Peaceful => PeacefulSound
    case Stressed => StressReliefSound
    case Sad => SadSound
    case Emotional => SadSound
    case Angry => AngryCalming
    case Anxious => AnxiousRelief
    case Happy => HappySound
    case Devotional => DevotionalSound
    case Powerful => PowerfulSound
    case Divine => DivineSound
  }

  /** The recipe `play` runs: the instrument's when one is given, else the mood's, else none. */
  function SelectRecipe(o: PlayOptions): Option<Recipe> {
    if o.instrument.Some? then Some(InstrumentRecipe(o.instrument.value))
    else if o.mood.Some? then Some(MoodRecipe(o.mood.value))
    else None
  }

  /** An instrument decides the recipe alone: the mood is then never consulted. */
  lemma InstrumentTakesPrecedence(o: PlayOptions, otherMood: Option<MoodType>)
    requires o.instrument.Some?
    ensures SelectRecipe(o) == Some(InstrumentRecipe(o.instrument.value))
    ensures SelectRecipe(o.(mood := otherMood)) == SelectRecipe(o)
  {
  }

  /** Without an instrument the mood decides, and with neither no recipe runs. */
  lemma MoodDecidesWithoutInstrument(o: PlayOptions)
    requires o.instrument.None?
    ensures o.mood.Some? ==> SelectRecipe(o) == Some(MoodRecipe(o.mood.value))
    ensures o.mood.None? ==> SelectRecipe(o).None?
  {
  }

  /** The only moods sharing a recipe are sad and emotional. */
  lemma MoodRecipeShared(a: MoodType, b: MoodType)
    ensures MoodRecipe(a) == MoodRecipe(b) <==> a == b || (a in {Sad, Emotional} && b in {Sad, Emotional})
  {
  }

  /** The only instruments sharing a recipe are nature and wind. */
  lemma InstrumentRecipeShared(a: InstrumentType, b: InstrumentType)
    ensures InstrumentRecipe(a) == InstrumentRecipe(b) <==> a == b || (a in {Nature, Wind} && b in {Nature, Wind})
  {
  }

  /** Keys of the two switches that reach the same recipe. */
  lemma CrossSwitchSharing(i: InstrumentType, m: MoodType)
    ensures InstrumentRecipe(i) == MoodRecipe(m) <==> (i == Om && m == Devotional) || (i == Water && m == Stressed)
  {
  }

  /**
   * What a recipe hands back: `tracked` oscillators it returns (and that
   * `stop` later stops), `untracked` continuous sources it starts but does
   * not return, and whether it stores a repeating timer in the controller.
   */
  datatype RecipeOutput = RecipeOutput(tracked: nat, untracked: nat, repeats: bool)

  function Output(r: Recipe): RecipeOutput {
    match r
    // four drones, each with an LFO on its gain
    case PeacefulSound => RecipeOutput(4, 4, false)
    // looping noise and its filter LFO, plus one returned pad
    case StressReliefSound => RecipeOutput(1, 2, false)
    // four tones, each with a vibrato oscillator
    case SadSound => RecipeOutput(4, 4, false)
    // three harmonics plus a looping noise source
    case AngryCalming => RecipeOutput(3, 1, false)
    // left tone, right tone, pad
    case AnxiousRelief => RecipeOutput(3, 0, false)
    // four tones, each with a shimmer oscillator
    case HappySound => RecipeOutput(4, 4, false)
    // four harmonics, each with a vibrato oscillator
    case DevotionalSound => RecipeOutput(4, 4, false)
    // four filtered tones
    case PowerfulSound => RecipeOutput(4, 0, false)
    // four tones, each with an LFO on its gain
    case DivineSound => RecipeOutput(4, 4, false)
    // a drone and a pulse every 2 seconds
    case MantraRhythmSound => RecipeOutput(1, 0, true)
    // a pad and a possible bell strike every 3 seconds
    case TempleBells => RecipeOutput(1, 0, true)
    // four strings, each with a buzz oscillator and an LFO
    case TanpuraDrone => RecipeOutput(4, 8, false)
    // a drone and a flute note every 3.5 seconds
    case FluteMelody => RecipeOutput(1, 0, true)
    // wind noise with its LFO, water noise; nothing returned
    case NatureSound => RecipeOutput(0, 3, false)
    // a pad and a possible chime cluster every 2.5 seconds
    case ChimesSound => RecipeOutput(1, 0, true)
  }

  /** Exactly the four scheduled recipes hold a timer, and each returns just its drone or pad. */
  lemma RepeatingRecipes(r: Recipe)
    ensures Output(r).repeats <==> r in {MantraRhythmSound, TempleBells, FluteMelody, ChimesSound}
    ensures Output(r).repeats ==> Output(r).tracked == 1 && Output(r).untracked == 0
  {
  }

  /** Nature (and wind) is the only recipe that returns no node at all. */
  lemma SilentToStop(r: Recipe)
    ensures Output(r).tracked == 0 <==> r == NatureSound
  {
  }

  function TrackedBy(r: Option<Recipe>): nat {
    if r.Some? then Output(r.value).tracked else 0
  }

  function UntrackedBy(r: Option<Recipe>): nat {
    if r.Some? then Output(r.value).untracked else 0
  }

  predicate RepeatsBy(r: Option<Recipe>) {
    r.Some? && Output(r.value).repeats
  }

  /** `options.volume ?? 0.5`: only a missing volume is replaced; an explicit 0 stays 0. */
  function VolumeOrDefault(v: Option<real>): (level: real)
    ensures v.None? ==> level == 0.5
    ensures v.Some? ==> level == v.value
  {
    v.GetOr(0.5)
  }

  // ---------------------------------------------------------------------------
  // The audio context: node handles, connections, gains
  // ---------------------------------------------------------------------------

  datatype ContextState = Suspended | Running | Closed

  type NodeHandle = nat
  type TimerHandle = nat

  /**
   * The part of a Web Audio context the controller drives. A source node's
   * chain (its own sub-gain, filter or panner) is collapsed into the one
   * master gain node it ends in, recorded in `feeds`.
   */
  class AudioContext {
    var state: ContextState
    /** The next handle `create…` will hand out. */
    var nextNode: nat
    /** Source nodes that were started and not stopped. */
    var started: set<NodeHandle>
    /** Connected source nodes and the master gain their chain ends in. */
    var feeds: map<NodeHandle, NodeHandle>
    /** Nodes connected to the context's destination (the speakers). */
    var toDestination: set<NodeHandle>
    /** Master gain nodes and the gain value last set on each. */
    var gainValue: map<NodeHandle, real>

    ghost predicate Valid()
      reads this
    {
      && (forall n :: n in started ==> n < nextNode)
      && (forall n :: n in feeds ==> n < nextNode && feeds[n] in gainValue)
      && (forall g :: g in gainValue ==> g < nextNode)
      && (forall g :: g in toDestination ==> g in gainValue)
    }

    /**
     * A node is heard when the context is running, the node runs and is
     * connected, and its master gain reaches the destination.
     */
    predicate Audible(n: NodeHandle)
      reads this
    {
      state == Running && n in started && n in feeds && feeds[n] in toDestination
    }

    /** `new AudioContext()`: a browser's autoplay policy may create it suspended. */
    constructor (startsSuspended: bool)
      ensures Valid()
      ensures state == (if startsSuspended then Suspended else Running)
      ensures nextNode == 0 && started == {} && feeds == map[]
      ensures toDestination == {} && gainValue == map[]
    {
      state := if startsSuspended then Suspended else Running;
      nextNode := 0;
      started := {};
      feeds := map[];
      toDestination := {};
      gainValue := map[];
    }

    /** `ctx.resume()`; its completion is not awaited by the caller. */
    method Resume()
      modifies this`state
      ensures state == (if old(state) == Suspended then Running else old(state))
    {
      if state == Suspended {
        state := Running;
      }
    }

    /** `ctx.createGain()` at `level`, then `connect(ctx.destination)`. */
    method CreateMasterGain(level: real) returns (g: NodeHandle)
      requires Valid()
      modifies this`nextNode, this`gainValue, this`toDestination
      ensures Valid()
      ensures g == old(nextNode) && nextNode == g + 1
      ensures gainValue == old(gainValue)[g := level]
      ensures toDestination == old(toDestination) + {g}
    {
      g := nextNode;
      nextNode := nextNode + 1;
      gainValue := gainValue[g := level];
      toDestination := toDestination + {g};
    }

    /** Create a source node, route it (through its own sub-gain) into `master`, and start it. */
    method StartSource(master: NodeHandle) returns (n: NodeHandle)
      requires Valid() && master in gainValue
      modifies this`nextNode, this`started, this`feeds
      ensures Valid()
      ensures n == old(nextNode) && nextNode == n + 1
      ensures started == old(started) + {n}
      ensures feeds == old(feeds)[n := master]
    {
      n := nextNode;
      nextNode := nextNode + 1;
      started := started + {n};
      feeds := feeds[n := master];
    }

    /** `node.stop(); node.disconnect()`, any exception swallowed. */
    method StopAndDisconnect(n: NodeHandle)
      requires Valid()
      modifies this`started, this`feeds
      ensures Valid()
      ensures started == old(started) - {n}
      ensures feeds == old(feeds) - {n}
    {
      started := started - {n};
      feeds := feeds - {n};
    }

    /** `gainNode.disconnect()`: the master gain no longer reaches the destination. */
    method DisconnectOutput(g: NodeHandle)
      requires Valid()
      modifies this`toDestination
      ensures Valid()
      ensures toDestination == old(toDestination) - {g}
    {
      toDestination := toDestination - {g};
    }

    /** `gainNode.gain.setValueAtTime(level, ctx.currentTime)`. */
    method SetGain(g: NodeHandle, level: real)
      requires Valid() && g in gainValue
      modifies this`gainValue
      ensures Valid()
      ensures gainValue == old(gainValue)[g := level]
    {
      gainValue := gainValue[g := level];
    }

    /** Start `count` sources routed into `master`; their handles are the next `count` ones. */
    method StartSources(master: NodeHandle, count: nat) returns (ns: seq<NodeHandle>)
      requires Valid() && master in gainValue
      modifies this`nextNode, this`started, this`feeds
      ensures Valid()
      ensures nextNode == old(nextNode) + count
      ensures |ns| == count && forall i :: 0 <= i < count ==> ns[i] == old(nextNode) + i
      ensures forall n :: n in started <==> n in old(started) || old(nextNode) <= n < nextNode
      ensures forall n :: n in feeds <==> n in old(feeds) || old(nextNode) <= n < nextNode
      ensures forall n :: n in feeds ==> feeds[n] == if n in old(feeds) then old(feeds)[n] else master
    {
      ns := [];
      while |ns| < count
        invariant Valid() && |ns| <= count
        invariant nextNode == old(nextNode) + |ns|
        invariant forall i :: 0 <= i < |ns| ==> ns[i] == old(nextNode) + i
        invariant forall n :: n in started <==> n in old(started) || old(nextNode) <= n < nextNode
        invariant forall n :: n in feeds <==> n in old(feeds) || old(nextNode) <= n < nextNode
        invariant forall n :: n in feeds ==> feeds[n] == if n in old(feeds) then old(feeds)[n] else master
      {
        var n := StartSource(master);
        ns := ns + [n];
      }
    }

    /** Stop and disconnect each of `ns` in turn. */
    method StopAll(ns: seq<NodeHandle>)
      requires Valid()
      modifies this`started, this`feeds
      ensures Valid()
      ensures started == old(started) - Elements(ns)
      ensures feeds == old(feeds) - Elements(ns)
    {
      for i := 0 to |ns|
        invariant Valid()
        invariant started == old(started) - Elements(ns[..i])
        invariant feeds == old(feeds) - Elements(ns[..i])
      {
        StopAndDisconnect(ns[i]);
        assert Elements(ns[..i + 1]) == Elements(ns[..i]) + {ns[i]} by {
          assert ns[..i + 1] == ns[..i] + [ns[i]];
        }
      }
      assert ns[..|ns|] == ns;
    }

    /** `ctx.close()`. */
    method Close()
      modifies this`state
      ensures state == Closed
    {
      state := Closed;
    }
  }

  // ---------------------------------------------------------------------------
  // The controller
  // ---------------------------------------------------------------------------

  function Elements(s: seq<NodeHandle>): set<NodeHandle> {
    set n | n in s
  }

  /**
   * The state held by one `useDivineAudio()` call. `activeIntervals` and
   * `nextTimer` stand for the browser's table of repeating timers, as far
   * as this controller's recipes register them.
   */
  class AudioController {
    /** Whether the browser creates a new context suspended (autoplay policy). */
    const autoplayBlocked: bool
    var ctx: AudioContext?
    var gain: Option<NodeHandle>
    var nodes: seq<NodeHandle>
    var interval: Option<TimerHandle>
    var isPlaying: bool
    var currentMood: Option<MoodType>
    var activeIntervals: set<TimerHandle>
    var nextTimer: nat
    /** The recipe the current session runs (none while stopped). */
    ghost var recipe: Option<Recipe>

    ghost predicate Valid()
      reads this, ctx
    {
      && (ctx != null ==> ctx.Valid())
      && (ctx == null ==> gain.None?)
      && (gain.Some? ==> ctx != null && gain.value in ctx.gainValue)
      // only the current master gain is connected to the destination
      && (ctx != null ==> ctx.toDestination == OptionSet(gain))
      && (gain.None? ==> nodes == [] && interval.None? && recipe.None?)
      // every tracked node runs and feeds the current master gain
      && (gain.Some? ==> forall i :: 0 <= i < |nodes| ==>
            nodes[i] in ctx.started && nodes[i] in ctx.feeds && ctx.feeds[nodes[i]] == gain.value)
      && |nodes| == TrackedBy(recipe)
      && (interval.Some? <==> RepeatsBy(recipe))
      // no repeating timer is running that the controller does not hold
      && activeIntervals == OptionSet(interval)
      && (forall t :: t in activeIntervals ==> t < nextTimer)
      && isPlaying == gain.Some?
      && (!isPlaying ==> currentMood.None?)
    }

    constructor (autoplayBlocked: bool)
      ensures Valid()
      ensures this.autoplayBlocked == autoplayBlocked
      ensures ctx == null && gain.None? && nodes == [] && interval.None?
      ensures !isPlaying && currentMood.None? && activeIntervals == {}
    {
      this.autoplayBlocked := autoplayBlocked;
      ctx := null;
      gain := None;
      nodes := [];
      interval := None;
      isPlaying := false;
      currentMood := None;
      activeIntervals := {};
      nextTimer := 0;
      recipe := None;
    }

    /** `initAudioContext`: create the context on first use, and reuse it afterwards. */
    method InitAudioContext() returns (c: AudioContext)
      requires Valid()
      modifies this`ctx
      ensures Valid() && c == ctx
      ensures old(ctx) != null ==> ctx == old(ctx)
      ensures old(ctx) == null ==> fresh(ctx) && ctx.nextNode == 0 && ctx.started == {} && ctx.feeds == map[]
      ensures old(ctx) == null ==> ctx.state == (if autoplayBlocked then Suspended else Running)
    {
      if ctx == null {
        ctx := new AudioContext(autoplayBlocked);
      }
      c := ctx;
    }

    /** `setInterval(…)` as a recipe calls it, storing the handle in `intervalRef`. */
    method StartInterval()
      requires interval.None? && activeIntervals == {}
      modifies this`interval, this`activeIntervals, this`nextTimer
      ensures interval == Some(old(nextTimer)) && nextTimer == old(nextTimer) + 1
      ensures activeIntervals == {old(nextTimer)}
    {
      interval := Some(nextTimer);
      activeIntervals := {nextTimer};
      nextTimer := nextTimer + 1;
    }

    /**
     * Run recipe `r` against master gain `g`: start its tracked oscillators
     * (returned), its untracked sources, and its repeating timer if it has one.
     */
    method BuildRecipe(r: Recipe, g: NodeHandle) returns (tracked: seq<NodeHandle>)
      requires ctx != null && ctx.Valid() && g in ctx.gainValue && ctx.nextNode == g + 1
      requires forall n :: n in ctx.feeds ==> ctx.feeds[n] != g
      requires interval.None? && activeIntervals == {}
      modifies ctx`nextNode, ctx`started, ctx`feeds, this`interval, this`activeIntervals, this`nextTimer
      ensures ctx.Valid()
      ensures ctx.nextNode == g + 1 + Output(r).tracked + Output(r).untracked
      ensures |tracked| == Output(r).tracked
      ensures forall i :: 0 <= i < |tracked| ==> tracked[i] == g + 1 + i
      ensures forall i :: 0 <= i < |tracked| ==>
                tracked[i] in ctx.started && tracked[i] in ctx.feeds && ctx.feeds[tracked[i]] == g
      ensures forall n: NodeHandle :: (n in ctx.started && n in ctx.feeds && ctx.feeds[n] == g) <==> g < n < ctx.nextNode
      ensures forall n :: n in ctx.started <==> n in old(ctx.started) || g < n < ctx.nextNode
      ensures forall n :: n in ctx.feeds <==> n in old(ctx.feeds) || g < n < ctx.nextNode
      ensures forall n :: n in ctx.feeds ==> ctx.feeds[n] == if n in old(ctx.feeds) then old(ctx.feeds)[n] else g
      ensures interval.Some? <==> Output(r).repeats
      ensures activeIntervals == OptionSet(interval)
      ensures nextTimer >= old(nextTimer) && forall t :: t in activeIntervals ==> old(nextTimer) <= t < nextTimer
    {
      var out := Output(r);
      tracked := ctx.StartSources(g, out.tracked);
      var _ := ctx.StartSources(g, out.untracked);
      if out.repeats {
        StartInterval();
      }
    }

    /**
     * `stop`: clear the timer, stop and disconnect every tracked node,
     * disconnect and drop the master gain, and mark the controller stopped.
     */
    method Stop()
      requires Valid()
      modifies this, ctx
      ensures Valid() && ctx == old(ctx)
      ensures interval.None? && activeIntervals == {} && nextTimer == old(nextTimer)
      ensures nodes == [] && gain.None? && !isPlaying && currentMood.None? && recipe.None?
      ensures ctx != null ==> ctx.started == old(ctx.started) - Elements(old(nodes))
      ensures ctx != null ==> ctx.feeds == old(ctx.feeds) - Elements(old(nodes))
      ensures ctx != null ==> ctx.toDestination == {}
      ensures ctx != null ==> ctx.gainValue == old(ctx.gainValue) && ctx.nextNode == old(ctx.nextNode)
      ensures ctx != null ==> ctx.state == old(ctx.state)
      ensures ctx != null ==> forall n: NodeHandle :: !ctx.Audible(n)
      // with nothing playing, stop leaves the context as it was
      ensures !old(isPlaying) && ctx != null ==> ctx.started == old(ctx.started) && ctx.feeds == old(ctx.feeds)
      ensures !old(isPlaying) && ctx != null ==> ctx.toDestination == old(ctx.toDestination)
    {
      if interval.Some? {
        activeIntervals := activeIntervals - {interval.value};
        interval := None;
      }
      if ctx != null {
        ctx.StopAll(nodes);
      }
      nodes := [];
      if gain.Some? {
        ctx.DisconnectOutput(gain.value);
        gain := None;
      }
      isPlaying := false;
      currentMood := None;
      recipe := None;
    }

    /**
     * `play`: reuse or create the context, stop the previous session, and
     * start the new one. Afterwards, unless the context was already closed,
     * exactly the sources of the new session are heard, and at most one
     * repeating timer is live.
     */
    method Play(o: PlayOptions)
      requires Valid()
      modifies this, ctx
      ensures Valid() && ctx != null
      ensures old(ctx) != null ==> ctx == old(ctx)
      ensures old(ctx) == null ==> fresh(ctx)
      ensures old(ctx) != null && old(ctx.state) == Closed ==> ctx.state == Closed
      ensures !(old(ctx) != null && old(ctx.state) == Closed) ==> ctx.state == Running
      ensures isPlaying && currentMood == o.mood && recipe == SelectRecipe(o)
      ensures gain.Some? && ctx.gainValue[gain.value] == VolumeOrDefault(o.volume)
      ensures ctx.toDestination == {gain.value}
      ensures |nodes| == TrackedBy(recipe)
      ensures ctx.nextNode == gain.value + 1 + TrackedBy(recipe) + UntrackedBy(recipe)
      ensures forall n: NodeHandle :: ctx.Audible(n) <==> ctx.state == Running && gain.value < n < ctx.nextNode
      ensures interval.Some? <==> RepeatsBy(recipe)
      ensures activeIntervals == OptionSet(interval)
    {
      var c := InitAudioContext();
      Stop();
      StartSession(o);
    }

    /**
     * The part of `play` after `stop()`: resume a suspended context, connect
     * a new master gain at `volume ?? 0.5`, and run the selected recipe.
     */
    method StartSession(o: PlayOptions)
      requires Valid() && ctx != null && gain.None? && ctx.toDestination == {}
      modifies this, ctx
      ensures Valid() && ctx == old(ctx)
      ensures ctx.state == if old(ctx.state) == Suspended then Running else old(ctx.state)
      ensures isPlaying && currentMood == o.mood && recipe == SelectRecipe(o)
      ensures gain.Some? && ctx.gainValue[gain.value] == VolumeOrDefault(o.volume)
      ensures ctx.toDestination == {gain.value}
      ensures ctx.nextNode == gain.value + 1 + TrackedBy(recipe) + UntrackedBy(recipe)
      ensures forall n: NodeHandle :: ctx.Audible(n) <==> ctx.state == Running && gain.value < n < ctx.nextNode
    {
      var c := ctx;
      c.Resume();
      var g := c.CreateMasterGain(VolumeOrDefault(o.volume));
      assert forall n :: n in c.feeds ==> c.feeds[n] != g;
      RunRecipe(SelectRecipe(o), g);
      currentMood := o.mood;
    }

    /** Run the selected recipe (if any) into the fresh master gain `g` and record the session. */
    method RunRecipe(r: Option<Recipe>, g: NodeHandle)
      requires ctx != null && ctx.Valid() && g in ctx.gainValue && ctx.nextNode == g + 1
      requires forall n :: n in ctx.feeds ==> ctx.feeds[n] != g
      requires ctx.toDestination == {g}
      requires gain.None? && interval.None? && activeIntervals == {}
      modifies this`gain, this`nodes, this`recipe, this`isPlaying, this`interval, this`activeIntervals, this`nextTimer
      modifies ctx`nextNode, ctx`started, ctx`feeds
      ensures ctx.Valid() && ctx.toDestination == {g} && ctx.gainValue == old(ctx.gainValue) && ctx.state == old(ctx.state)
      ensures gain == Some(g) && isPlaying && recipe == r
      ensures |nodes| == TrackedBy(r)
      ensures forall i :: 0 <= i < |nodes| ==> nodes[i] in ctx.started && nodes[i] in ctx.feeds && ctx.feeds[nodes[i]] == g
      ensures ctx.nextNode == g + 1 + TrackedBy(r) + UntrackedBy(r)
      ensures forall n: NodeHandle :: (n in ctx.started && n in ctx.feeds && ctx.feeds[n] == g) <==> g < n < ctx.nextNode
      ensures (interval.Some? <==> RepeatsBy(r)) && activeIntervals == OptionSet(interval)
      ensures forall t :: t in activeIntervals ==> t < nextTimer
    {
      var tracked: seq<NodeHandle> := [];
      if r.Some? {
        tracked := BuildRecipe(r.value, g);
      }
      gain := Some(g);
      nodes := tracked;
      recipe := r;
      isPlaying := true;
    }

    /** `setVolume`: set the master gain, but only while a session and its context exist. */
    method SetVolume(level: real)
      requires Valid()
      modifies ctx
      ensures Valid()
      ensures ctx != null ==> ctx.state == old(ctx.state) && ctx.started == old(ctx.started) && ctx.feeds == old(ctx.feeds)
      ensures ctx != null ==> ctx.toDestination == old(ctx.toDestination) && ctx.nextNode == old(ctx.nextNode)
      ensures gain.Some? ==> ctx.gainValue == old(ctx.gainValue)[gain.value := level]
      ensures gain.None? && ctx != null ==> ctx.gainValue == old(ctx.gainValue)
    {
      if gain.Some? && ctx != null {
        ctx.SetGain(gain.value, level);
      }
    }

    /** The unmount cleanup: `stop()`, then close the context unless it is already closed. */
    method Dispose()
      requires Valid()
      modifies this, ctx
      ensures Valid() && ctx == old(ctx)
      ensures !isPlaying && currentMood.None? && interval.None? && activeIntervals == {} && nodes == []
      ensures ctx != null ==> ctx.state == Closed && forall n: NodeHandle :: !ctx.Audible(n)
    {
      Stop();
      if ctx != null && ctx.state != Closed {
        ctx.Close();
      }
    }
  }

  /**
   * `createNoiseBuffer`: a one-channel buffer of `sampleRate * seconds`
   * samples, each `Math.random() * 2 - 1`. The random draws are a parameter.
   * The source's `seconds` defaults to 2, which the pink-noise recipe relies
   * on; a caller here passes 2 for it.
   */
  method CreateNoiseBuffer(sampleRate: nat, seconds: nat, draws: seq<real>) returns (data: array<real>)
    requires |draws| >= sampleRate * seconds
    requires forall i :: 0 <= i < |draws| ==> 0.0 <= draws[i] < 1.0
    ensures data.Length == sampleRate * seconds
    ensures forall i :: 0 <= i < data.Length ==> data[i] == draws[i] * 2.0 - 1.0
    ensures forall i :: 0 <= i < data.Length ==> -1.0 <= data[i] < 1.0
  {
    var bufferSize := sampleRate * seconds;
    data := new real[bufferSize];
    for i := 0 to bufferSize
      invariant forall j :: 0 <= j < i ==> data[j] == draws[j] * 2.0 - 1.0
    {
      data[i] := draws[i] * 2.0 - 1.0;
    }
  }
}
