/** Lip sync in the browser (server/front/src/avatar/LipSync.ts): an analyser
    attached to the playing audio element, and the mouth opening read off its
    waveform as a scaled root mean square.

    The Web Audio graph is observed through the calls made on it: `events` logs
    every node created, connected, disconnected or closed. Node handles are
    numbers the model hands out. The analyser's current waveform is the
    parameter `waveform` of `GetValue`, and `Math.sqrt` the parameter `sqrt`. */
module Audio {
  import opened Wrappers
  import opened Bytes

  /** `analyser.fftSize = 2048` */
  const FftSize: nat := 2048

  /** `analyser.smoothingTimeConstant = 0.7` */
  const Smoothing: real := 0.7

  /** `analyser.frequencyBinCount`: half the FFT size. */
  function FrequencyBinCount(fftSize: nat): nat {
    fftSize / 2
  }

  /** An analyser node and the settings it was given. */
  datatype Analyser = Analyser(node: nat, fftSize: nat, smoothing: real)

  /** A media element source node and the audio element it reads. */
  datatype Source = Source(node: nat, element: nat)

  /** A call on the Web Audio API. */
  datatype AudioEvent =
    | CreateContext(context: nat)
    | CreateAnalyser(context: nat, node: nat)
    | CreateSource(context: nat, node: nat, element: nat)
    | ConnectNodes(from: nat, to: nat)
    | ConnectToDestination(context: nat, node: nat)
    | DisconnectNode(node: nat)
    | CloseContext(context: nat)

  /** The audio contexts created and not yet closed by a run of calls. */
  function LiveContexts(es: seq<AudioEvent>): set<nat> {
    if es == [] then {}
    else
      var live, last := LiveContexts(es[..|es| - 1]), es[|es| - 1];
      if last.CreateContext? then live + {last.context}
      else if last.CloseContext? then live - {last.context}
      else live
  }

  /** The calls `connect` makes once disconnected: a new context, its
      analyser, the element's source, source into analyser, analyser to the
      speakers. */
  function Setup(context: nat, analyser: nat, source: nat, element: nat): seq<AudioEvent> {
    [CreateContext(context), CreateAnalyser(context, analyser), CreateSource(context, source, element),
     ConnectNodes(source, analyser), ConnectToDestination(context, analyser)]
  }

  /** The calls `disconnect` makes: each node and the context are released
      only when present. */
  function Teardown(source: Option<Source>, analyser: Option<Analyser>, context: Option<nat>): (r: seq<AudioEvent>)
    ensures |r| <= 3
    ensures source.None? && analyser.None? && context.None? ==> r == []
    ensures context.Some? ==> |r| > 0 && r[|r| - 1] == CloseContext(context.value)
    ensures forall e :: e in r ==> !e.CreateContext?
  {
    (if source.Some? then [DisconnectNode(source.value.node)] else [])
    + (if analyser.Some? then [DisconnectNode(analyser.value.node)] else [])
    + (if context.Some? then [CloseContext(context.value)] else [])
  }

  /** Appending one call to the log changes the live contexts as that call
      says. */
  lemma LiveContextsStep(es: seq<AudioEvent>, e: AudioEvent)
    ensures e.CreateContext? ==> LiveContexts(es + [e]) == LiveContexts(es) + {e.context}
    ensures e.CloseContext? ==> LiveContexts(es + [e]) == LiveContexts(es) - {e.context}
    ensures !e.CreateContext? && !e.CloseContext? ==> LiveContexts(es + [e]) == LiveContexts(es)
  {
    assert (es + [e])[..|es|] == es;
  }

  /** Calls that neither create nor close a context leave the live contexts
      alone, and closing `c` last leaves `c` closed. */
  lemma {:induction false} LiveContextsAppend(es: seq<AudioEvent>, more: seq<AudioEvent>)
    requires forall e :: e in more ==> !e.CreateContext?
    ensures LiveContexts(es + more) <= LiveContexts(es)
    ensures more != [] && more[|more| - 1].CloseContext? ==>
      more[|more| - 1].context !in LiveContexts(es + more)
    decreases |more|
  {
    if more != [] {
      var init, last := more[..|more| - 1], more[|more| - 1];
      assert es + more == (es + init) + [last];
      assert last in more;
      assert forall e :: e in init ==> e in more;
      LiveContextsAppend(es, init);
      LiveContextsStep(es + init, last);
    } else {
      assert es + more == es;
    }
  }

  /** Setting up a new context makes it live and changes nothing else that
      is live. */
  lemma LiveAfterSetup(es: seq<AudioEvent>, context: nat, analyser: nat, source: nat, element: nat)
    ensures LiveContexts(es + Setup(context, analyser, source, element)) == LiveContexts(es) + {context}
  {
    var setup := Setup(context, analyser, source, element);
    var es1 := es + [setup[0]];
    var es2 := es1 + [setup[1]];
    var es3 := es2 + [setup[2]];
    var es4 := es3 + [setup[3]];
    assert es + setup == es4 + [setup[4]];
    LiveContextsStep(es, setup[0]);
    LiveContextsStep(es1, setup[1]);
    LiveContextsStep(es2, setup[2]);
    LiveContextsStep(es3, setup[3]);
    LiveContextsStep(es4, setup[4]);
  }

  // ---------------------------------------------------------------------------
  // The level read off the waveform

  /** `(d - 128) / 128`: an unsigned 8-bit sample centred on 128, as a
      fraction of full scale. */
  function Sample(b: byte): (v: real)
    ensures -1.0 <= v < 1.0
    ensures v == 0.0 <==> b == 128
  {
    (b as real - 128.0) / 128.0
  }

  /** The sum of the squared samples, as the loop of `getValue` accumulates
      it: never negative. */
  function SumSquares(s: seq<byte>): (r: real)
    ensures 0.0 <= r
  {
    if s == [] then 0.0
    else
      SquareInUnit(s[|s| - 1]);
      SumSquares(s[..|s| - 1]) + Sample(s[|s| - 1]) * Sample(s[|s| - 1])
  }

  /** A square of a sample lies in [0, 1]. */
  lemma SquareInUnit(b: byte)
    ensures 0.0 <= Sample(b) * Sample(b) <= 1.0
  {
    var v := Sample(b);
    if v >= 0.0 {
      assert v * v <= v * 1.0;
    } else {
      assert v * v == (-v) * (-v);
      assert (-v) * (-v) <= (-v) * 1.0;
    }
  }

  /** The sum of `n` squared samples lies in [0, n]. */
  lemma {:induction false} SumSquaresBounds(s: seq<byte>)
    ensures 0.0 <= SumSquares(s) <= |s| as real
  {
    if s != [] {
      var init, last := s[..|s| - 1], s[|s| - 1];
      SumSquaresBounds(init);
      SquareInUnit(last);
      assert SumSquares(s) == SumSquares(init) + Sample(last) * Sample(last);
      assert |s| as real == |init| as real + 1.0;
    }
  }

  /** Silence sums to nothing, and only silence does. */
  lemma {:induction false} SumSquaresZero(s: seq<byte>)
    ensures SumSquares(s) == 0.0 <==> forall i :: 0 <= i < |s| ==> s[i] == 128
  {
    if s != [] {
      var init, last := s[..|s| - 1], s[|s| - 1];
      SumSquaresZero(init);
      SumSquaresBounds(init);
      SquareInUnit(last);
      var sq := Sample(last) * Sample(last);
      assert sq == 0.0 <==> last == 128 by {
        if sq == 0.0 {
          assert Sample(last) == 0.0;
        }
      }
      if forall i :: 0 <= i < |s| ==> s[i] == 128 {
        assert forall i :: 0 <= i < |init| ==> init[i] == s[i];
      }
      if SumSquares(s) == 0.0 {
        assert forall i :: 0 <= i < |init| ==> init[i] == 128;
        forall i | 0 <= i < |s|
          ensures s[i] == 128
        {
          if i < |init| {
            assert s[i] == init[i];
          }
        }
      }
    }
  }

  /** The mean square of a non-empty waveform: the share of the sum that
      falls to each sample. */
  function MeanSquare(s: seq<byte>): (r: real)
    requires |s| > 0
    ensures 0.0 <= r
    ensures r * |s| as real == SumSquares(s)
  {
    SumSquares(s) / |s| as real
  }

  /** The mean square of a non-empty waveform lies in [0, 1]. */
  lemma MeanSquareInUnit(s: seq<byte>)
    requires |s| > 0
    ensures 0.0 <= MeanSquare(s) <= 1.0
  {
    SumSquaresBounds(s);
    var n, x := |s| as real, SumSquares(s);
    var q := x / n;
    assert q * n == x;
    assert (1.0 - q) * n == n - x;
  }

  function Min(a: real, b: real): real {
    if a < b then a else b
  }

  /** What `Math.sqrt` promises and the level relies on: no negative root of
      a non-negative number, and the root of 0 is 0. */
  ghost predicate RootLike(sqrt: real -> real) {
    && (forall x :: 0.0 <= x ==> 0.0 <= sqrt(x))
    && sqrt(0.0) == 0.0
  }

  /** `Math.min(1, Math.sqrt(meanSquare) * 2.2)`: never above full opening,
      and never negative for a root that is never negative. */
  function Level(s: seq<byte>, sqrt: real -> real): (r: real)
    requires |s| > 0
    ensures r <= 1.0
    ensures RootLike(sqrt) ==> 0.0 <= r
  {
    Min(1.0, sqrt(MeanSquare(s)) * 2.2)
  }

  /** The level is a mouth opening: it lies in [0, 1]. */
  lemma LevelInUnit(s: seq<byte>, sqrt: real -> real)
    requires |s| > 0 && RootLike(sqrt)
    ensures 0.0 <= Level(s, sqrt) <= 1.0
  {
    MeanSquareInUnit(s);
  }

  /** A silent waveform (every byte 128) closes the mouth, and a waveform
      that closes it is silent when the root of a positive number is
      positive. */
  lemma SilenceCloses(s: seq<byte>, sqrt: real -> real)
    requires |s| > 0 && RootLike(sqrt)
    ensures (forall i :: 0 <= i < |s| ==> s[i] == 128) ==> Level(s, sqrt) == 0.0
    ensures (forall x :: 0.0 < x ==> 0.0 < sqrt(x)) && Level(s, sqrt) == 0.0 ==>
      forall i :: 0 <= i < |s| ==> s[i] == 128
  {
    SumSquaresZero(s);
    SumSquaresBounds(s);
    if SumSquares(s) != 0.0 {
      assert SumSquares(s) / |s| as real > 0.0;
    }
  }

  /** A louder waveform never opens the mouth less, when the root is
      monotone. */
  lemma LevelMonotone(s: seq<byte>, t: seq<byte>, sqrt: real -> real)
    requires |s| > 0 && |t| > 0
    requires forall x, y :: 0.0 <= x <= y ==> sqrt(x) <= sqrt(y)
    requires MeanSquare(s) <= MeanSquare(t)
    ensures Level(s, sqrt) <= Level(t, sqrt)
  {
    MeanSquareInUnit(s);
  }

  // ---------------------------------------------------------------------------
  // The class

  /** `LipSync`: the context, analyser, sample buffer and source node of the
      current connection, all null when disconnected. */
  class LipSync {
    var audioContext: Option<nat>
    var analyser: Option<Analyser>
    var dataArray: array?<byte>
    var source: Option<Source>
    /** Every call made on the Web Audio API so far. */
    var events: seq<AudioEvent>
    /** The next unused node handle. */
    var nextNode: nat

    /** Connected means all four fields are set, with the analyser's settings
        and a buffer of `frequencyBinCount` bytes; at most one audio context is
        live, the current one, and its handle is below `nextNode`. */
    ghost predicate Valid()
      reads this
    {
      && (audioContext.Some? <==> analyser.Some?)
      && (source.Some? <==> analyser.Some?)
      && (dataArray != null <==> analyser.Some?)
      && (analyser.Some? ==>
            && analyser.value.fftSize == FftSize && analyser.value.smoothing == Smoothing
            && dataArray.Length == FrequencyBinCount(FftSize))
      && LiveContexts(events) == (if audioContext.Some? then {audioContext.value} else {})
      && (audioContext.Some? ==> audioContext.value < nextNode)
    }

    predicate Connected()
      reads this
    {
      analyser.Some? && dataArray != null
    }

    constructor()
      ensures Valid() && !Connected()
      ensures audioContext == None && analyser == None && dataArray == null && source == None
      ensures events == []
    {
      audioContext := None;
      analyser := None;
      dataArray := null;
      source := None;
      events := [];
      nextNode := 0;
    }

    /** `disconnect()`: releases the source, the analyser and the context that
        are present, in that order, then forgets all four. On a disconnected
        instance it makes no call. */
    method Disconnect()
      requires Valid()
      modifies this
      ensures Valid() && !Connected()
      ensures audioContext == None && analyser == None && dataArray == null && source == None
      ensures events == old(events) + Teardown(old(source), old(analyser), old(audioContext))
      ensures LiveContexts(events) == {}
      ensures old(!Connected()) ==> events == old(events)
      ensures nextNode == old(nextNode)
    {
      ghost var before := events;
      if source.Some? {
        events := events + [DisconnectNode(source.value.node)];
      }
      if analyser.Some? {
        events := events + [DisconnectNode(analyser.value.node)];
      }
      if audioContext.Some? {
        events := events + [CloseContext(audioContext.value)];
      }
      ghost var released := Teardown(source, analyser, audioContext);
      assert events == before + released;
      LiveContextsAppend(before, released);
      audioContext := None;
      analyser := None;
      dataArray := null;
      source := None;
    }

    /** `connect(audioElement)`: disconnects first, then opens a new context
        whose analyser (FFT size 2048, smoothing 0.7) listens to the element
        and plays through to the speakers, with a fresh buffer of
        `frequencyBinCount` zero bytes. The new context is the only live one. */
    method Connect(element: nat)
      requires Valid()
      modifies this
      ensures Valid() && Connected()
      ensures fresh(dataArray) && dataArray.Length == FrequencyBinCount(FftSize) == 1024
      ensures forall i :: 0 <= i < dataArray.Length ==> dataArray[i] == 0
      ensures analyser.value.fftSize == FftSize && analyser.value.smoothing == Smoothing
      ensures source.value.element == element
      ensures LiveContexts(events) == {audioContext.value}
      ensures audioContext.value !in LiveContexts(old(events))
      ensures events == old(events) + Teardown(old(source), old(analyser), old(audioContext))
        + Setup(audioContext.value, analyser.value.node, source.value.node, element)
    {
      Disconnect();
      ghost var torn := events;
      var context := nextNode;
      var an := nextNode + 1;
      var src := nextNode + 2;
      nextNode := nextNode + 3;
      events := events + Setup(context, an, src, element);
      LiveAfterSetup(torn, context, an, src, element);
      audioContext := Some(context);
      analyser := Some(Analyser(an, FftSize, Smoothing));
      source := Some(Source(src, element));
      dataArray := new byte[FrequencyBinCount(FftSize)](_ => 0);
    }

    /** `getValue()`: 0 when disconnected. Otherwise the analyser's waveform
        is copied into the buffer (`getByteTimeDomainData`, one sample per
        byte of the buffer) and the level of the buffer is returned. */
    method GetValue(waveform: seq<byte>, sqrt: real -> real) returns (value: real)
      requires Valid() && RootLike(sqrt)
      requires Connected() ==> |waveform| == analyser.value.fftSize
      modifies dataArray
      ensures !Connected() ==> value == 0.0
      ensures Connected() ==>
        && dataArray[..] == waveform[..dataArray.Length]
        && value == Level(dataArray[..], sqrt)
      ensures 0.0 <= value <= 1.0
    {
      if analyser == None || dataArray == null {
        return 0.0;
      }
      var data := dataArray;
      forall i | 0 <= i < data.Length {
        data[i] := waveform[i];
      }
      var sum := 0.0;
      for i := 0 to data.Length
        invariant sum == SumSquares(data[..i])
      {
        var v := (data[i] as real - 128.0) / 128.0;
        assert data[..i + 1][..i] == data[..i];
        sum := sum + v * v;
      }
      assert data[..data.Length] == data[..];
      var rms := sqrt(sum / data.Length as real);
      value := Min(1.0, rms * 2.2);
      LevelInUnit(data[..], sqrt);
    }
  }
}
