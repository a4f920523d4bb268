/** The single-source player hook: a lazily created audio context, one
    "current source" reference, the exposed analyser and the `isPlaying`
    flag. Platform objects are identified by numbers handed out in creation
    order, so "a new one" means an id not used before. The platform's own
    events (a context being closed, a source's `ended` event) are methods
    too. */
module AudioPlayer {
  import opened Common

  /** A decoded audio buffer, as an opaque identity. */
  datatype AudioBuffer = AudioBuffer(id: nat)

  /** An audio context and whether the platform has closed it. */
  datatype Context = Context(id: nat, closed: bool)

  /** A buffer source is started once; `stop()` or the end of its buffer
      ends playback, and the platform then fires its `ended` event once. */
  datatype SourceState = Playing | Stopped | Ended

  /** A buffer source node: its buffer, the context and analyser it was
      wired to, and where it is in its life. */
  datatype SourceNode = SourceNode(buffer: AudioBuffer, context: nat, output: nat, state: SourceState)

  /** `node.stop()` inside `try { } catch { }`: a playing source stops; on a
      source that already stopped or ended any error is swallowed and
      nothing changes. */
  function StopNode(n: SourceNode): (r: SourceNode)
    ensures r.buffer == n.buffer && r.context == n.context && r.output == n.output
    ensures r.state != Playing
    ensures n.state != Playing ==> r == n
  {
    if n.state == Playing then n.(state := Stopped) else n
  }

  class Player {
    /** `audioContextRef.current`. */
    var context: Option<Context>
    /** Every source node created, in creation order. */
    var sources: seq<SourceNode>
    /** `sourceRef.current`, an index into `sources`. */
    var current: Option<nat>
    /** The `analyser` state exposed to the visualiser. */
    var analyser: Option<nat>
    var isPlaying: bool
    /** How many contexts and analysers were created: the next fresh ids. */
    var contextsCreated: nat
    var analysersCreated: nat

    /** The reference invariant: the current source exists, it is the only
        source that may still be playing, and every id was handed out. */
    ghost predicate Valid()
      reads this
    {
      && (current.Some? ==> current.value < |sources|)
      && (forall i :: 0 <= i < |sources| && current != Some(i) ==> sources[i].state != Playing)
      && (context.Some? ==> context.value.id < contextsCreated)
      && (analyser.Some? ==> analyser.value < analysersCreated)
      && (forall i :: 0 <= i < |sources| ==> sources[i].output < analysersCreated)
    }

    /** The flag tells the truth: it is set exactly while the current
        source is playing. */
    ghost predicate FlagAccurate()
      reads this
      requires Valid()
    {
      isPlaying <==> current.Some? && sources[current.value].state == Playing
    }

    constructor ()
      ensures Valid() && FlagAccurate()
      ensures context == None && sources == [] && current == None && analyser == None && !isPlaying
      ensures contextsCreated == 0 && analysersCreated == 0
    {
      context, sources, current, analyser, isPlaying := None, [], None, None, false;
      contextsCreated, analysersCreated := 0, 0;
    }

    /** What `initAudioContext` leaves: an open context, the same one when
        it was open already (and then the same analyser), otherwise a new
        context with a new analyser. Sources and the flag are untouched. */
    twostate predicate ContextReady()
      reads this
    {
      && context.Some? && !context.value.closed
      && sources == old(sources) && current == old(current) && isPlaying == old(isPlaying)
      && (old(context.None? || context.value.closed) ==>
            context.value.id == old(contextsCreated) && contextsCreated == old(contextsCreated) + 1
            && analyser == Some(old(analysersCreated)) && analysersCreated == old(analysersCreated) + 1)
      && (old(context.Some? && !context.value.closed) ==>
            context == old(context) && contextsCreated == old(contextsCreated)
            && analyser == old(analyser) && analysersCreated == old(analysersCreated))
    }

    /** What `playAudio(buffer)` leaves: the previous current source stopped
        and every other one untouched, the context made ready as
        `initAudioContext` does, and a new playing source on `buffer`, wired
        to one more fresh analyser, as the current source with the flag on. */
    twostate predicate Played(buffer: AudioBuffer)
      reads this
    {
      && isPlaying
      && |sources| == |old(sources)| + 1
      && current == Some(|old(sources)|)
      && context.Some? && !context.value.closed && analyser.Some?
      && sources[|old(sources)|] == SourceNode(buffer, context.value.id, analyser.value, Playing)
      && analyser.value + 1 == analysersCreated
      && (forall i :: 0 <= i < |old(sources)| ==>
            sources[i] == if old(current) == Some(i) then StopNode(old(sources)[i]) else old(sources)[i])
      && (old(context.Some? && !context.value.closed) ==>
            context == old(context) && contextsCreated == old(contextsCreated)
            && analysersCreated == old(analysersCreated) + 1)
      && (old(context.None? || context.value.closed) ==>
            context == Some(Context(old(contextsCreated), false)) && contextsCreated == old(contextsCreated) + 1
            && analysersCreated == old(analysersCreated) + 2)
    }

    /** What `stopAudio` leaves: the current source stopped, every other
        source, the reference, the context and the analyser untouched, and
        the flag off. */
    twostate predicate StopsCurrent()
      reads this
    {
      && !isPlaying
      && current == old(current) && context == old(context) && analyser == old(analyser)
      && contextsCreated == old(contextsCreated) && analysersCreated == old(analysersCreated)
      && |sources| == |old(sources)|
      && (forall i :: 0 <= i < |sources| ==>
            sources[i] == if current == Some(i) then StopNode(old(sources)[i]) else old(sources)[i])
    }

    /** `initAudioContext`, returning the context it settles on. */
    method InitAudioContext() returns (ctx: nat)
      requires Valid()
      modifies this
      ensures Valid() && ContextReady()
      ensures context == Some(Context(ctx, false))
    {
      if context.None? || context.value.closed {
        ctx := contextsCreated;
        contextsCreated := contextsCreated + 1;
        context := Some(Context(ctx, false));
        analyser := Some(analysersCreated);
        analysersCreated := analysersCreated + 1;
        return;
      }
      ctx := context.value.id;
    }

    /** `playAudio`: stop the previous current source (errors ignored),
        start a new source on the buffer through a fresh analyser, make both
        current and set the flag, which then tells the truth. */
    method PlayAudio(buffer: AudioBuffer)
      requires Valid()
      modifies this
      ensures Valid() && Played(buffer) && FlagAccurate()
    {
      var ctx := InitAudioContext();
      if current.Some? {
        sources := sources[current.value := StopNode(sources[current.value])];
      }
      var dest := analysersCreated;
      analysersCreated := analysersCreated + 1;
      analyser := Some(dest);
      sources := sources + [SourceNode(buffer, ctx, dest, Playing)];
      current := Some(|sources| - 1);
      isPlaying := true;
    }

    /** `stopAudio`: stop the current source if there is one (errors
        ignored) and clear the flag; the reference itself is kept. */
    method StopAudio()
      requires Valid()
      modifies this
      ensures Valid() && FlagAccurate() && StopsCurrent()
    {
      if current.Some? {
        sources := sources[current.value := StopNode(sources[current.value])];
      }
      isPlaying := false;
    }

    /** The platform closes the context. */
    method ContextClosed()
      requires Valid()
      modifies this
      ensures Valid()
      ensures old(context.Some?) ==> context == Some(old(context.value).(closed := true))
      ensures old(context.None?) ==> context == None
      ensures sources == old(sources) && current == old(current) && analyser == old(analyser)
      ensures isPlaying == old(isPlaying)
      ensures contextsCreated == old(contextsCreated) && analysersCreated == old(analysersCreated)
    {
      if context.Some? {
        context := Some(context.value.(closed := true));
      }
    }

    /** The `ended` event of source `i` with the handler as written
        (`source.onended = () => setIsPlaying(false)`): whichever source
        ended, the flag is cleared. */
    method OnEnded(i: nat)
      requires Valid()
      requires i < |sources| && sources[i].state != Ended
      modifies this
      ensures Valid()
      ensures !isPlaying
      ensures sources == old(sources)[i := old(sources)[i].(state := Ended)]
      ensures current == old(current) && context == old(context) && analyser == old(analyser)
      ensures contextsCreated == old(contextsCreated) && analysersCreated == old(analysersCreated)
    {
      sources := sources[i := sources[i].(state := Ended)];
      isPlaying := false;
    }

    /** The `ended` event with the handler guarded by source identity:
        only the end of the current source clears the flag. */
    method OnEndedGuarded(i: nat)
      requires Valid() && FlagAccurate()
      requires i < |sources| && sources[i].state != Ended
      modifies this
      ensures Valid() && FlagAccurate()
      ensures current != Some(i) ==> isPlaying == old(isPlaying)
      ensures current == Some(i) ==> !isPlaying
      ensures sources == old(sources)[i := old(sources)[i].(state := Ended)]
      ensures current == old(current) && context == old(context) && analyser == old(analyser)
      ensures contextsCreated == old(contextsCreated) && analysersCreated == old(analysersCreated)
    {
      sources := sources[i := sources[i].(state := Ended)];
      if current == Some(i) {
        isPlaying := false;
      }
    }
  }

  /** The discrepancy: play one buffer, play a second, and let the first
      source's `ended` event (fired because it was stopped) arrive. With the
      handler as written the flag is off while the second source plays. */
  method StaleEndedClearsFlag() returns (p: Player)
    ensures p.Valid()
    ensures p.current == Some(1) && p.sources[1].state == Playing
    ensures !p.isPlaying
    ensures !p.FlagAccurate()
  {
    p := new Player();
    p.PlayAudio(AudioBuffer(0));
    p.PlayAudio(AudioBuffer(1));
    assert p.sources[0].state == Stopped;
    p.OnEnded(0);
  }

  /** The same sequence with the guarded handler keeps the flag on. */
  method StaleEndedIgnoredWhenGuarded() returns (p: Player)
    ensures p.Valid() && p.FlagAccurate()
    ensures p.current == Some(1) && p.sources[1].state == Playing
    ensures p.isPlaying
  {
    p := new Player();
    p.PlayAudio(AudioBuffer(0));
    p.PlayAudio(AudioBuffer(1));
    p.OnEndedGuarded(0);
  }
}
