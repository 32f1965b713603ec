/** The io.Writer behind the two printers. */
module Writers {
  import opened Base

  /** What a writer has taken so far: of write number k, at most room(k)
      characters. */
  datatype Sink = Sink(text: string, calls: nat, room: nat -> nat) {
    function Put(piece: string): Sink {
      Sink(text + piece[..Min(room(calls), |piece|)], calls + 1, room)
    }
  }

  class Writer {
    var text: string
    var calls: nat
    const room: nat -> nat

    constructor (room: nat -> nat)
      ensures this.room == room && State() == Sink("", 0, room)
    {
      this.room, text, calls := room, "", 0;
    }

    ghost function State(): Sink
      reads this
    {
      Sink(text, calls, room)
    }

    /** All of the piece, or a part of it and an error. */
    method Write(piece: string) returns (n: nat, ok: bool)
      modifies this
      ensures State() == old(State()).Put(piece)
      ensures n <= |piece| && text == old(text) + piece[..n] && (ok <==> n == |piece|)
    {
      n := Min(room(calls), |piece|);
      text, calls := text + piece[..n], calls + 1;
      ok := n == |piece|;
    }
  }

  /** One write after the other. */
  function PutAll(sink: Sink, pieces: seq<string>): Sink {
    if pieces == [] then sink
    else PutAll(sink, pieces[..|pieces| - 1]).Put(pieces[|pieces| - 1])
  }

  function Flat(pieces: seq<string>): string {
    if pieces == [] then "" else Flat(pieces[..|pieces| - 1]) + pieces[|pieces| - 1]
  }

  /** The writer has room for each of these writes. */
  ghost predicate Takes(sink: Sink, pieces: seq<string>) {
    forall i :: 0 <= i < |pieces| ==> |pieces[i]| <= sink.room(sink.calls + i)
  }

  lemma PutAllNext(sink: Sink, pieces: seq<string>, k: nat)
    requires k < |pieces|
    ensures PutAll(sink, pieces[..k + 1]) == PutAll(sink, pieces[..k]).Put(pieces[k])
  {
    assert pieces[..k + 1][..k] == pieces[..k];
  }

  lemma {:induction false} PutAllConcat(sink: Sink, a: seq<string>, b: seq<string>)
    ensures PutAll(sink, a + b) == PutAll(PutAll(sink, a), b)
  {
    if b == [] {
      assert a + b == a;
    } else {
      PutAllConcat(sink, a, b[..|b| - 1]);
      assert (a + b)[..|a + b| - 1] == a + b[..|b| - 1];
    }
  }

  lemma {:induction false} FlatConcat(a: seq<string>, b: seq<string>)
    ensures Flat(a + b) == Flat(a) + Flat(b)
  {
    if b == [] {
      assert a + b == a;
    } else {
      FlatConcat(a, b[..|b| - 1]);
      assert (a + b)[..|a + b| - 1] == a + b[..|b| - 1];
    }
  }

  lemma TakesSnoc(sink: Sink, init: seq<string>, last: string)
    ensures Takes(sink, init + [last]) <==> Takes(sink, init) && |last| <= sink.room(sink.calls + |init|)
  {
    var pieces := init + [last];
    assert pieces[|init|] == last;
    assert forall i :: 0 <= i < |init| ==> pieces[i] == init[i];
  }

  /** Exactly a writer with room for everything ends up with the whole text;
      another one ends up with less, and those who write do not notice. */
  lemma {:induction false} PutAllText(sink: Sink, pieces: seq<string>)
    ensures
      var out := PutAll(sink, pieces);
      && out.room == sink.room && out.calls == sink.calls + |pieces|
      && |out.text| <= |sink.text| + |Flat(pieces)|
      && (|out.text| == |sink.text| + |Flat(pieces)| <==> Takes(sink, pieces))
      && (out.text == sink.text + Flat(pieces) <==> Takes(sink, pieces))
  {
    if pieces != [] {
      var init, last := pieces[..|pieces| - 1], pieces[|pieces| - 1];
      assert pieces == init + [last];
      PutAllText(sink, init);
      TakesSnoc(sink, init, last);
      if Takes(sink, pieces) {
        assert last[..|last|] == last;
      }
    }
  }
}
