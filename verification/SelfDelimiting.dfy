/** Self-delimiting codecs: what decoding a stream of encoded items gives, for any item format whose
    decoder undoes its encoder and never mistakes a cut item for an item. Instantiated by the relay
    frames and by the attach-control messages. */
module SelfDelimiting {
  import opened Bytes

  datatype ReadError = EndOfStream | UnexpectedEnd | Malformed
  datatype ReadResult<+F> = Got(item: F, rest: seq<byte>) | Failed(error: ReadError)

  type Encoder<!F> = F -> seq<byte>
  type Decoder<!F> = seq<byte> -> ReadResult<F>

  /** The header and the payload are read by one full read each, and a full read that finds nothing at all reports the
      end of the stream: so a cut at a boundary and a cut right after a header look the same. */
  function CutError(head: nat, k: nat): ReadError { if k == 0 || k == head then EndOfStream else UnexpectedEnd }

  ghost predicate Undoes<F(!new)>(valid: F -> bool, enc: Encoder<F>, dec: Decoder<F>) {
    forall f: F, rest: seq<byte> {:trigger dec(enc(f) + rest)} :: valid(f) ==> dec(enc(f) + rest) == Got(f, rest)
  }

  ghost predicate DetectsCuts<F(!new)>(valid: F -> bool, enc: Encoder<F>, dec: Decoder<F>, head: nat) {
    forall f: F, k: nat {:trigger dec(enc(f)[..k])} :: valid(f) && k < |enc(f)| ==> dec(enc(f)[..k]) == Failed(CutError(head, k))
  }

  ghost predicate Codec<F(!new)>(valid: F -> bool, enc: Encoder<F>, dec: Decoder<F>, head: nat) {
    && Undoes(valid, enc, dec)
    && DetectsCuts(valid, enc, dec, head)
    && (forall f: F :: |enc(f)| > 0)
    && dec([]) == Failed(EndOfStream)
  }

  function EncodeAll<F>(enc: Encoder<F>, fs: seq<F>): seq<byte> {
    if fs == [] then [] else enc(fs[0]) + EncodeAll(enc, fs[1..])
  }

  /** Repeated reading until the first error. */
  function ReadAll<F>(dec: Decoder<F>, s: seq<byte>): (r: (seq<F>, ReadError))
    decreases |s|
  {
    match dec(s)
    case Failed(e) => ([], e)
    case Got(f, rest) =>
      if |rest| >= |s| then ([f], Malformed)
      else
        var tail := ReadAll(dec, rest);
        ([f] + tail.0, tail.1)
  }

  ghost predicate AllValid<F>(valid: F -> bool, fs: seq<F>) { forall i :: 0 <= i < |fs| ==> valid(fs[i]) }

  lemma {:induction false} EncodeAllAppend<F>(enc: Encoder<F>, a: seq<F>, b: seq<F>)
    ensures EncodeAll(enc, a + b) == EncodeAll(enc, a) + EncodeAll(enc, b)
  {
    if a == [] {
      assert a + b == b;
    } else {
      assert (a + b)[1..] == a[1..] + b;
      EncodeAllAppend(enc, a[1..], b);
    }
  }

  lemma EncodeAllSnoc<F>(enc: Encoder<F>, fs: seq<F>, f: F)
    ensures EncodeAll(enc, fs + [f]) == EncodeAll(enc, fs) + enc(f)
  {
    EncodeAllAppend(enc, fs, [f]);
    assert [f][1..] == [];
  }

  lemma {:induction false} EncodeAllSplit<F>(enc: Encoder<F>, fs: seq<F>, n: nat)
    requires n <= |fs|
    ensures EncodeAll(enc, fs) == EncodeAll(enc, fs[..n]) + EncodeAll(enc, fs[n..])
  {
    assert fs == fs[..n] + fs[n..];
    EncodeAllAppend(enc, fs[..n], fs[n..]);
  }

  lemma CutFirst<T>(a: seq<T>, b: seq<T>, k: nat)
    requires k <= |a| + |b|
    ensures k <= |a| ==> (a + b)[..k] == a[..k]
    ensures k >= |a| ==> (a + b)[..k] == a + b[..k - |a|]
  {
  }

  /** How many whole items fit into the first k bytes. */
  function Whole<F>(enc: Encoder<F>, fs: seq<F>, k: nat): (n: nat)
    ensures n <= |fs|
    decreases |fs|
  {
    if fs == [] || k < |enc(fs[0])| then 0 else 1 + Whole(enc, fs[1..], k - |enc(fs[0])|)
  }

  lemma {:induction false} WholeIsMaximal<F>(enc: Encoder<F>, fs: seq<F>, k: nat)
    requires k <= |EncodeAll(enc, fs)|
    ensures var n := Whole(enc, fs, k);
            |EncodeAll(enc, fs[..n])| <= k && (n < |fs| ==> k < |EncodeAll(enc, fs[..n + 1])|)
    decreases |fs|
  {
    if fs != [] {
      var n := Whole(enc, fs, k);
      if k < |enc(fs[0])| {
        assert fs[..1][1..] == [];
      } else {
        WholeIsMaximal(enc, fs[1..], k - |enc(fs[0])|);
        assert fs[..n][1..] == fs[1..][..n - 1];
        if n < |fs| { assert fs[..n + 1][1..] == fs[1..][..n]; }
      }
    }
  }

  lemma ReadAllHead<F(!new)>(valid: F -> bool, enc: Encoder<F>, dec: Decoder<F>, head: nat, f: F, rest: seq<byte>)
    requires Codec(valid, enc, dec, head) && valid(f)
    ensures ReadAll(dec, enc(f) + rest) == ([f] + ReadAll(dec, rest).0, ReadAll(dec, rest).1)
  {
    assert dec(enc(f) + rest) == Got(f, rest);
  }

  lemma ReadAllNothing<F(!new)>(valid: F -> bool, enc: Encoder<F>, dec: Decoder<F>, head: nat, f: F, k: nat)
    requires Codec(valid, enc, dec, head) && valid(f) && k < |enc(f)|
    ensures ReadAll(dec, enc(f)[..k]) == ([], CutError(head, k))
  {
    assert dec(enc(f)[..k]) == Failed(CutError(head, k));
  }

  lemma EncodeAllTake<F>(enc: Encoder<F>, fs: seq<F>, m: nat)
    requires m < |fs|
    ensures fs[..m + 1] == [fs[0]] + fs[1..][..m]
    ensures EncodeAll(enc, fs[..m + 1]) == enc(fs[0]) + EncodeAll(enc, fs[1..][..m])
  {
    assert fs[..m + 1][1..] == fs[1..][..m];
  }

  /** Cutting the encoded list anywhere yields the whole items before the cut and then an error, which
      tells a clean boundary from an item broken elsewhere than after its header. */
  lemma {:induction false} ReadAllOfCut<F(!new)>(valid: F -> bool, enc: Encoder<F>, dec: Decoder<F>, head: nat, fs: seq<F>, k: nat)
    requires Codec(valid, enc, dec, head) && AllValid(valid, fs) && k <= |EncodeAll(enc, fs)|
    ensures |EncodeAll(enc, fs[..Whole(enc, fs, k)])| <= k
    ensures var n := Whole(enc, fs, k);
            ReadAll(dec, EncodeAll(enc, fs)[..k])
            == (fs[..n], if n == |fs| then EndOfStream else CutError(head, k - |EncodeAll(enc, fs[..n])|))
    decreases |fs|
  {
    if fs != [] {
      var f, tail := fs[0], fs[1..];
      CutFirst(enc(f), EncodeAll(enc, tail), k);
      if k < |enc(f)| {
        ReadAllNothing(valid, enc, dec, head, f, k);
        assert fs[..0] == [];
      } else {
        var k' := k - |enc(f)|;
        ReadAllHead(valid, enc, dec, head, f, EncodeAll(enc, tail)[..k']);
        ReadAllOfCut(valid, enc, dec, head, tail, k');
        EncodeAllTake(enc, fs, Whole(enc, tail, k'));
      }
    }
  }

  lemma {:induction false} WholeOfAll<F>(enc: Encoder<F>, fs: seq<F>)
    ensures Whole(enc, fs, |EncodeAll(enc, fs)|) == |fs|
  {
    if fs != [] { WholeOfAll(enc, fs[1..]); }
  }

  lemma ReadAllRoundTrip<F(!new)>(valid: F -> bool, enc: Encoder<F>, dec: Decoder<F>, head: nat, fs: seq<F>)
    requires Codec(valid, enc, dec, head) && AllValid(valid, fs)
    ensures ReadAll(dec, EncodeAll(enc, fs)) == (fs, EndOfStream)
  {
    var all := EncodeAll(enc, fs);
    WholeOfAll(enc, fs);
    ReadAllOfCut(valid, enc, dec, head, fs, |all|);
    assert all[..|all|] == all && fs[..|fs|] == fs;
  }

  /** Reading at the boundary after n items gives the next item, and stops right after it. */
  lemma ReadNext<F(!new)>(valid: F -> bool, enc: Encoder<F>, dec: Decoder<F>, head: nat, fs: seq<F>, n: nat, tail: seq<byte>)
    requires Codec(valid, enc, dec, head) && AllValid(valid, fs) && n < |fs|
    ensures var s := EncodeAll(enc, fs) + tail;
            var at, next := |EncodeAll(enc, fs[..n])|, |EncodeAll(enc, fs[..n + 1])|;
            at < next <= |s| && dec(s[at..]) == Got(fs[n], s[next..])
  {
    var f, before, more := fs[n], EncodeAll(enc, fs[..n]), EncodeAll(enc, fs[n + 1..]);
    assert EncodeAll(enc, fs[..n + 1]) == before + enc(f) by {
      assert fs[..n + 1] == fs[..n] + [f];
      EncodeAllSnoc(enc, fs[..n], f);
    }
    EncodeAllSplit(enc, fs, n + 1);
    Reassociate(before, enc(f), more, tail);
    assert dec(enc(f) + (more + tail)) == Got(f, more + tail);
  }

  lemma Reassociate<T>(a: seq<T>, b: seq<T>, c: seq<T>, d: seq<T>)
    ensures (a + b + c + d)[|a|..] == b + (c + d)
    ensures (a + b + c + d)[|a + b|..] == c + d
  {
  }

  /** Past the last whole item there is no item: at most a cut one. */
  lemma ReadPastEnd<F(!new)>(valid: F -> bool, enc: Encoder<F>, dec: Decoder<F>, head: nat, fs: seq<F>, f: F, k: nat)
    requires Codec(valid, enc, dec, head) && valid(f) && k < |enc(f)|
    ensures var s := EncodeAll(enc, fs) + enc(f)[..k];
            dec(s[|EncodeAll(enc, fs)|..]) == Failed(CutError(head, k))
  {
    var all := EncodeAll(enc, fs);
    assert (all + enc(f)[..k])[|all|..] == enc(f)[..k];
  }
}
