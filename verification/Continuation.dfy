/** Streaming sinks of continuation.py: what a model call's text becomes on the event log. */
module Continuation {
  import opened Common
  import opened Session

  const BOUNDARY_OVERLAP_WINDOW: nat := 2048
  const MIN_BOUNDARY_OVERLAP: nat := 16

  function Min(a: nat, b: nat): nat {
    if a < b then a else b
  }

  /** The last k characters of previous are the first k of following. */
  predicate Agree(previous: string, following: string, k: nat) {
    k <= |previous| && k <= |following| && previous[|previous| - k..] == following[..k]
  }

  function SearchDown(previous: string, following: string, size: nat): nat {
    if size < MIN_BOUNDARY_OVERLAP then 0
    else if Agree(previous, following, size) then size
    else SearchDown(previous, following, size - 1)
  }

  function BoundaryOverlap(previous: string, following: string): nat {
    SearchDown(previous, following, Min(Min(|previous|, |following|), BOUNDARY_OVERLAP_WINDOW))
  }

  /** k is the greatest admissible size at which suffix and prefix agree, or 0 when there is none. */
  predicate GreatestOverlap(previous: string, following: string, k: nat) {
    && (k == 0 || (MIN_BOUNDARY_OVERLAP <= k <= BOUNDARY_OVERLAP_WINDOW && Agree(previous, following, k)))
    && forall size :: MIN_BOUNDARY_OVERLAP <= size <= BOUNDARY_OVERLAP_WINDOW && Agree(previous, following, size) ==>
        size <= k
  }

  lemma {:induction false} SearchDownIsGreatest(previous: string, following: string, size: nat)
    requires size <= BOUNDARY_OVERLAP_WINDOW
    requires forall s :: size < s <= BOUNDARY_OVERLAP_WINDOW ==> !Agree(previous, following, s)
    ensures GreatestOverlap(previous, following, SearchDown(previous, following, size))
  {
    if size >= MIN_BOUNDARY_OVERLAP && !Agree(previous, following, size) {
      SearchDownIsGreatest(previous, following, size - 1);
    }
  }

  lemma BoundaryOverlapIsGreatest(previous: string, following: string)
    ensures GreatestOverlap(previous, following, BoundaryOverlap(previous, following))
    ensures BoundaryOverlap(previous, following) == 0 || 16 <= BoundaryOverlap(previous, following) <= 2048
    ensures forall k :: 16 <= k <= 2048 && Agree(previous, following, k) ==> k <= BoundaryOverlap(previous, following)
  {
    SearchDownIsGreatest(previous, following, Min(Min(|previous|, |following|), BOUNDARY_OVERLAP_WINDOW));
  }

  /** Deciding on the first 2048 characters decides for the whole text. */
  lemma PrefixDecides(previous: string, following: string, n: nat)
    requires BOUNDARY_OVERLAP_WINDOW <= n <= |following|
    ensures BoundaryOverlap(previous, following[..n]) == BoundaryOverlap(previous, following)
  {
    BoundaryOverlapIsGreatest(previous, following);
    BoundaryOverlapIsGreatest(previous, following[..n]);
    hide BoundaryOverlap;
    forall k | MIN_BOUNDARY_OVERLAP <= k <= BOUNDARY_OVERLAP_WINDOW
      ensures Agree(previous, following, k) <==> Agree(previous, following[..n], k)
    {
      assert following[..n][..k] == following[..k];
    }
  }

  function VisibleText(content: string, overlap: nat): string {
    if overlap == 0 then content else if overlap >= |content| then "" else content[overlap..]
  }

  /** Joining loses and repeats nothing: the result starts with the committed text and ends with the whole new
      segment. */
  lemma JoinedText(committed: string, segment: string)
    ensures
      var joined := committed + VisibleText(segment, BoundaryOverlap(committed, segment));
      && committed <= joined
      && |segment| <= |joined| && joined[|joined| - |segment|..] == segment
  {
    BoundaryOverlapIsGreatest(committed, segment);
    var k := BoundaryOverlap(committed, segment);
    hide BoundaryOverlap;
    var joined := committed + VisibleText(segment, k);
    assert VisibleText(segment, k) == segment[k..];
    assert joined[|joined| - |segment|..] == committed[|committed| - k..] + segment[k..];
    assert segment[..k] + segment[k..] == segment;
  }

  /** Only answer text was appended to the log, and it reads text. */
  ghost predicate Forwarded(log: seq<Event>, log': seq<Event>, text: string) {
    Grew(log, log', text) && forall i :: |log| <= i < |log'| ==> log'[i].TextDelta?
  }

  lemma ForwardNothing(log: seq<Event>)
    ensures Forwarded(log, log, "")
  {
    GrewNothing(log);
  }

  lemma ForwardText(log: seq<Event>, piece: string)
    ensures Forwarded(log, log + [TextDelta(piece)], piece)
  {
    GrewEmit(log, TextDelta(piece));
  }

  /** Forwards segment text as it arrives. */
  class LiveDeltas {
    const session: RunSession
    var emitted: bool
    var sawInput: bool
    ghost var received: string

    constructor (session: RunSession)
      ensures this.session == session && !emitted && !sawInput && received == ""
    {
      this.session := session;
      emitted, sawInput, received := false, false, "";
    }

    method Emit(piece: string)
      modifies this, session
      ensures received == old(received) + piece
      ensures sawInput == (old(sawInput) || piece != "") && emitted == (old(emitted) || piece != "")
      ensures Forwarded(old(session.events), session.events, piece)
    {
      received := received + piece;
      if piece == "" {
        ForwardNothing(session.events);
        return;
      }
      sawInput := true;
      emitted := true;
      ForwardText(session.events, piece);
      session.Emit(TextDelta(piece));
    }
  }

  /** Holds back a bounded prefix, drops one overlap with the previous text, then forwards the rest. */
  class ContinuationDeltas {
    const session: RunSession
    const previous: string
    var buffer: seq<string>
    var size: nat
    var flushed: bool
    var overlap: nat
    var emitted: bool
    var sawInput: bool
    ghost var received: string  // all text passed in so far
    ghost var finished: bool

    /** All text emitted so far. */
    ghost function Out(): string
      reads this
    {
      if flushed && overlap <= |received| then received[overlap..] else ""
    }

    /** Before the flush little is in; after it, the overlap of the whole text so far is known. */
    ghost predicate Valid()
      reads this
    {
      && (sawInput <==> received != "")
      && (emitted <==> Out() != "")
      && (!flushed ==> Concat(buffer) == received && size == |received| < BOUNDARY_OVERLAP_WINDOW && overlap == 0)
      && (flushed ==> overlap == BoundaryOverlap(previous, received) <= |received|)
      && (flushed ==> |received| >= BOUNDARY_OVERLAP_WINDOW || finished)
    }

    constructor (session: RunSession, previous: string)
      ensures this.session == session && this.previous == previous
      ensures Valid() && !finished && received == "" && Out() == ""
    {
      this.session := session;
      this.previous := previous;
      buffer, size, flushed, overlap, emitted, sawInput := [], 0, false, 0, false, false;
      received, finished := "", false;
    }

    /** Whatever the pieces, the events are exactly the growth of Out(). */
    method Emit(piece: string)
      requires Valid() && !finished
      modifies this, session
      ensures Valid() && !finished
      ensures received == old(received) + piece
      ensures exists delta :: Out() == old(Out()) + delta && Forwarded(old(session.events), session.events, delta)
    {
      hide BoundaryOverlap, Forwarded, Concat;
      received := received + piece;
      if piece == "" {
        assert received == old(received);
        ForwardNothing(session.events);
        assert Out() == old(Out()) + "";
        return;
      }
      sawInput := true;
      if flushed {
        emitted := true;
        PrefixDecides(previous, received, |old(received)|);
        assert received[..|old(received)|] == old(received);
        ForwardText(session.events, piece);
        session.Emit(TextDelta(piece));
        assert Out() == old(Out()) + piece;
        return;
      }
      ConcatSnoc(buffer, piece);
      buffer := buffer + [piece];
      size := size + |piece|;
      if size >= BOUNDARY_OVERLAP_WINDOW {
        Flush();
        assert Out() == old(Out()) + Out();
      } else {
        ForwardNothing(session.events);
        assert Out() == old(Out()) + "";
      }
    }

    /** Returns the overlap of the whole segment with the previous text; exactly the rest of it has been emitted. */
    method Finish() returns (k: nat)
      requires Valid() && !finished
      modifies this, session
      ensures received == old(received) && sawInput == old(sawInput)
      ensures k == BoundaryOverlap(previous, received) <= |received|
      ensures Out() == received[k..] && (emitted <==> Out() != "")
      ensures exists delta :: Out() == old(Out()) + delta && Forwarded(old(session.events), session.events, delta)
    {
      hide BoundaryOverlap, Forwarded, Concat;
      if !flushed {
        Flush();
        assert Out() == old(Out()) + Out();
      } else {
        ForwardNothing(session.events);
        assert Out() == old(Out()) + "";
      }
      k := overlap;
      finished := true;
    }

    method Flush()
      requires !flushed && Concat(buffer) == received && !emitted
      modifies this, session
      ensures flushed && received == old(received) && sawInput == old(sawInput) && finished == old(finished)
      ensures overlap == BoundaryOverlap(previous, received) <= |received|
      ensures emitted <==> Out() != ""
      ensures Forwarded(old(session.events), session.events, Out())
    {
      var prefix := Concat(buffer);
      overlap := BoundaryOverlap(previous, prefix);
      BoundaryOverlapIsGreatest(previous, prefix);
      hide BoundaryOverlap, Concat, Forwarded;
      var visible := prefix[overlap..];
      if visible != "" {
        emitted := true;
        ForwardText(session.events, visible);
        session.Emit(TextDelta(visible));
      } else {
        ForwardNothing(session.events);
      }
      flushed := true;
    }
  }

  lemma ForwardedTrans(a: seq<Event>, b: seq<Event>, c: seq<Event>, s: string, t: string)
    requires Forwarded(a, b, s) && Forwarded(b, c, t)
    ensures Forwarded(a, c, s + t)
  {
    GrewTrans(a, b, c, s, t);
  }

  /** Chunking does not matter: however a segment is cut into pieces, the events read it without its overlap with
      the previous text, which is the overlap of the whole segment. */
  method StreamSegment(session: RunSession, previous: string, pieces: seq<string>) returns (k: nat)
    modifies session
    ensures k == BoundaryOverlap(previous, Concat(pieces)) <= |Concat(pieces)|
    ensures Forwarded(old(session.events), session.events, Concat(pieces)[k..])
  {
    hide BoundaryOverlap, Forwarded, Concat;
    ghost var start := session.events;
    var sink := new ContinuationDeltas(session, previous);
    ForwardNothing(start);
    assert pieces[..0] == [];
    assert Concat([]) == "" by { NothingJoined(); }
    for i := 0 to |pieces|
      invariant fresh(sink) && sink.session == session && sink.previous == previous
      invariant sink.Valid() && !sink.finished && sink.received == Concat(pieces[..i])
      invariant Forwarded(start, session.events, sink.Out())
    {
      ghost var before, said := session.events, sink.Out();
      ConcatSnoc(pieces[..i], pieces[i]);
      assert pieces[..i + 1] == pieces[..i] + [pieces[i]];
      sink.Emit(pieces[i]);
      ghost var delta :| sink.Out() == said + delta && Forwarded(before, session.events, delta);
      ForwardedTrans(start, before, session.events, said, delta);
    }
    assert pieces[..|pieces|] == pieces;
    ghost var before, said := session.events, sink.Out();
    k := sink.Finish();
    ghost var delta :| sink.Out() == said + delta && Forwarded(before, session.events, delta);
    ForwardedTrans(start, before, session.events, said, delta);
  }

  lemma NothingJoined()
    ensures Concat([]) == ""
  {}
}
