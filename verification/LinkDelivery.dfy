/** What holds over whole runs of FramedLink, for the relay's own frames: in-order delivery at most once. */
module LinkDelivery {
  import opened SelfDelimiting
  import opened FramedLink
  import Frames

  lemma {:induction false} RunKeeps<F(!new)>(fmt: Format<F>, run: seq<State<F>>, i: nat)
    requires Sound(fmt) && Run(fmt, run) && i < |run|
    ensures Inv(fmt, run[i])
  {
    if i > 0 {
      RunKeeps(fmt, run, i - 1);
      assert Step(fmt, run[i - 1], run[i - 1 + 1]);
      StepKeeps(fmt, run[i - 1], run[i]);
    }
  }

  /** The format of the relay protocol. */
  const RelayFrames: Format<Frames.Frame> := Format(Frames.Valid, Frames.Encode, Frames.ReadFrame, Frames.HEADER_SIZE)

  lemma RelayFramesAreSound()
    ensures Sound(RelayFrames)
  {
    Frames.FrameCodec();
    assert Frames.Valid(Frames.Frame(Frames.CLOSE, 1, []));
    assert RelayFrames.valid(Frames.Frame(Frames.CLOSE, 1, []));
  }

  /** In every run, across attachments, failures, retries and concurrent writers: the frames returned are
      an in-order subsequence of the frames written, and no WriteFrame call is written twice, so none is
      delivered twice. */
  lemma DeliveryIsInOrderAtMostOnce(run: seq<State<Frames.Frame>>, i: nat)
    requires Run(RelayFrames, run) && i < |run|
    ensures Subsequence(run[i].returned, FramesOf(run[i].written))
    ensures forall m, n :: 0 <= m < n < |run[i].written| ==> run[i].written[m].call != run[i].written[n].call
  {
    var s := run[i];
    RelayFramesAreSound();
    RunKeeps(RelayFrames, run, i);
    ReceiptsAreASubsequence(s.conns);
    var idx :| Embeds(idx, Receipts(s.conns), Sends(s.conns));
    assert Embeds(idx, s.returned, FramesOf(s.written));
  }

  /** A frame the reader returns was decoded wholly from one connection, being exactly the next frame
      completely written there. */
  lemma FrameComesFromOneConnection(run: seq<State<Frames.Frame>>, i: nat)
    requires Run(RelayFrames, run) && i + 1 < |run| && ReadDone(RelayFrames, run[i], run[i + 1])
    ensures var c := run[i].conns[run[i].reader.value];
            c.got < |c.done| && run[i + 1].returned == run[i].returned + [c.done[c.got].frame]
  {
    RelayFramesAreSound();
    RunKeeps(RelayFrames, run, i);
    ReaderGetsNext(RelayFrames, run[i], run[i].reader.value);
  }

  // ----- One stream of many -----

  /** The frames of one stream, in order. */
  function OfStream(fs: seq<Frames.Frame>, id: int): seq<Frames.Frame> {
    if fs == [] then []
    else OfStream(fs[..|fs| - 1], id) + if fs[|fs| - 1].streamId == id then [fs[|fs| - 1]] else []
  }

  lemma GrowBoth<T>(a: seq<T>, b: seq<T>, x: T)
    requires Subsequence(a, b)
    ensures Subsequence(a, b + [x]) && Subsequence(a + [x], b + [x])
  {
    var idx: seq<int> :| Embeds(idx, a, b);
    assert Embeds(idx, a, b + [x]);
    assert Embeds(idx + [|b|], a + [x], b + [x]);
  }

  lemma EmbedShorter<T>(idx: seq<int>, a: seq<T>, b: seq<T>)
    requires Embeds(idx, a, b) && b != []
    ensures a != [] && idx[|a| - 1] == |b| - 1 ==> Embeds(idx[..|a| - 1], a[..|a| - 1], b[..|b| - 1]) && a[|a| - 1] == b[|b| - 1]
    ensures a == [] || idx[|a| - 1] != |b| - 1 ==> Embeds(idx, a, b[..|b| - 1])
  {
    forall i | 0 <= i < |a| - 1 ensures idx[i] < idx[|a| - 1] { }
  }

  /** One more frame on both sides, or on the sender's only. */
  lemma StreamGrows(a: seq<Frames.Frame>, b: seq<Frames.Frame>, x: Frames.Frame, id: int)
    requires Subsequence(OfStream(a, id), OfStream(b, id))
    ensures Subsequence(OfStream(a, id), OfStream(b + [x], id)) && Subsequence(OfStream(a + [x], id), OfStream(b + [x], id))
  {
    StreamNext(a, x, id);
    StreamNext(b, x, id);
    if x.streamId == id { GrowBoth(OfStream(a, id), OfStream(b, id), x); }
  }

  lemma StreamNext(fs: seq<Frames.Frame>, x: Frames.Frame, id: int)
    ensures OfStream(fs + [x], id) == if x.streamId == id then OfStream(fs, id) + [x] else OfStream(fs, id)
  {
    assert (fs + [x])[..|fs|] == fs;
  }

  /** Picking one stream out keeps the order and adds nothing. */
  lemma {:induction false} StreamSubsequence(idx: seq<int>, a: seq<Frames.Frame>, b: seq<Frames.Frame>, id: int)
    requires Embeds(idx, a, b)
    ensures Subsequence(OfStream(a, id), OfStream(b, id))
    decreases |b|
  {
    if b == [] {
      assert a == [] && OfStream(a, id) == [];
      assert Embeds([], OfStream(a, id), OfStream(b, id));
    } else {
      var n, m := |b| - 1, |a| - 1;
      EmbedShorter(idx, a, b);
      assert b == b[..n] + [b[n]];
      if a != [] && idx[m] == n {
        StreamSubsequence(idx[..m], a[..m], b[..n], id);
        StreamGrows(a[..m], b[..n], b[n], id);
        assert a == a[..m] + [b[n]];
      } else {
        StreamSubsequence(idx, a, b[..n], id);
        StreamGrows(a, b[..n], b[n], id);
      }
    }
  }

  /** Over the shared link each stream sees what Stream assumes of its own: its frames arrive in order, some may be lost,
      none is made up. */
  lemma EachStreamIsInOrder(run: seq<State<Frames.Frame>>, i: nat, id: int)
    requires Run(RelayFrames, run) && i < |run|
    ensures Subsequence(OfStream(run[i].returned, id), OfStream(FramesOf(run[i].written), id))
  {
    DeliveryIsInOrderAtMostOnce(run, i);
    var idx :| Embeds(idx, run[i].returned, FramesOf(run[i].written));
    StreamSubsequence(idx, run[i].returned, FramesOf(run[i].written), id);
  }
}
