/**
 * The body of the `generate` loop: look at the output slot, skip the
 * iteration when it is empty or the JPEG encoder fails, and otherwise
 * yield one multipart part holding the encoded image.
 */
module Streaming {
  import opened Basics
  import opened Vision
  import opened Multipart

  /** One reader iteration on the slot value it found. */
  function Iteration(tk: Toolkit, slot: Option<Frame>): (r: Option<seq<byte>>)
    ensures r.Some? <==> slot.Some? && tk.imencode(JPEG_EXTENSION, slot.value).0
    ensures r.Some? ==> Unchunk(r.value) == Some(tk.imencode(JPEG_EXTENSION, slot.value).1)
  {
    if slot.None? then None
    else
      var encoded := tk.imencode(JPEG_EXTENSION, slot.value);
      if !encoded.0 then None
      else
        UnchunkChunk(encoded.1);
        Some(Chunk(encoded.1))
  }

  /** The parts an iteration yields: none or one. */
  function Sent(yielded: Option<seq<byte>>): seq<seq<byte>> {
    if yielded.Some? then [yielded.value] else []
  }

  /** The parts a reader yields over iterations that found the given slot values, in order. */
  function Emitted(tk: Toolkit, observed: seq<Option<Frame>>): (parts: seq<seq<byte>>)
    ensures |parts| <= |observed|
    ensures forall k :: 0 <= k < |parts| ==> Unchunk(parts[k]).Some?
    decreases |observed|
  {
    if |observed| == 0 then []
    else Emitted(tk, observed[..|observed| - 1]) + Sent(Iteration(tk, observed[|observed| - 1]))
  }

  /** Emitting over two stretches of iterations is emitting over each in turn. */
  lemma {:induction false} EmittedConcat(tk: Toolkit, a: seq<Option<Frame>>, b: seq<Option<Frame>>)
    ensures Emitted(tk, a + b) == Emitted(tk, a) + Emitted(tk, b)
    decreases |b|
  {
    if |b| == 0 {
      assert a + b == a;
    } else {
      assert (a + b)[..|a + b| - 1] == a + b[..|b| - 1];
      assert (a + b)[|a + b| - 1] == b[|b| - 1];
      EmittedConcat(tk, a, b[..|b| - 1]);
    }
  }

  /** A reader yields nothing at all iff every iteration found an empty slot or a frame the encoder rejected. */
  lemma {:induction false} EmittedNothing(tk: Toolkit, observed: seq<Option<Frame>>)
    ensures Emitted(tk, observed) == [] <==>
      forall i :: 0 <= i < |observed| ==> Iteration(tk, observed[i]).None?
    decreases |observed|
  {
    if |observed| > 0 {
      var front := observed[..|observed| - 1];
      EmittedNothing(tk, front);
      assert forall i :: 0 <= i < |front| ==> front[i] == observed[i];
    }
  }
}
