/** The streaming provider as the model the engine drives. */
module Provider {
  import opened Session
  import opened Engine
  import opened StreamAssembly

  /** The reply is what the chunk loop makes of some stream, and streamed what the loop passes on live. */
  ghost predicate Provided(reply: Reply, chunks: seq<Chunk>, cancelAt: nat) {
    && reply.Returned? && reply.result == Assembled(chunks, cancelAt)
    && TextOfPieces(reply.pieces) == ContentBeforeTools(Seen(chunks, cancelAt))
  }

  ghost predicate FromProvider(reply: Reply) {
    reply.Raised? || exists chunks, cancelAt :: Provided(reply, chunks, cancelAt)
  }

  /** A reply without tool calls streamed its whole content. */
  lemma WithoutCallsIsWhole(reply: Reply)
    requires FromProvider(reply) && (reply.Returned? ==> reply.result.toolCalls == [])
    ensures WholeOrNothing(reply)
  {
    if reply.Returned? {
      var chunks, cancelAt :| Provided(reply, chunks, cancelAt);
      NoCallsNoFragments(Fragments(Seen(chunks, cancelAt)));
      LiveTextIsPrefix(Seen(chunks, cancelAt));
    }
  }

  /** So a run on this provider answers with what it streamed, when the calls its last turn kept made no tool call. */
  lemma LastTurnAnswers(run: Run, last: Turn, log: seq<Event>, from: nat, limit: int)
    requires run.IsLast(last, log, from) && run.Answered(last, limit)
    requires forall i: nat :: last.firstCall + last.discardedCalls <= i < run.calls ==>
      FromProvider(run.replies(i)) && (run.replies(i).Returned? ==> run.replies(i).result.toolCalls == [])
    ensures AnswerStreamed(last.start, run.session.events, run.calls - last.firstCall, last.number, limit,
        run.SaidBy(last.firstCall, last.firstCall + last.discardedCalls))
  {
    hide FromProvider, AnswerStreamed, WholeOrNothing, Run.IsLast, Run.SaidBy;
    forall i: nat | last.firstCall + last.discardedCalls <= i < run.calls ensures WholeOrNothing(run.replies(i)) {
      WithoutCallsIsWhole(run.replies(i));
    }
  }
}
