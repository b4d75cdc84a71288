/** The trace of a finished run, built with an index from tool id to the record on the list. */
module Trace {
  import opened Readers

  /** The record on the list and the one in the index are the same object. */
  class ToolRecord {
    const id: string
    const name: string
    const args: string
    var done: bool
    var ok: bool
    var summary: string

    constructor (id: string, name: string, args: string)
      ensures this.id == id && this.name == name && this.args == args
      ensures !done && !ok && summary == ""
    {
      this.id, this.name, this.args := id, name, args;
      done, ok, summary := false, false, "";
    }

    ghost function Info(): ToolInfo
      reads this
    {
      ToolInfo(id, name, args, done, ok, summary)
    }
  }

  ghost function Infos(tools: seq<ToolRecord>): seq<ToolInfo>
    reads tools
  {
    seq(|tools|, i requires 0 <= i < |tools| reads tools => tools[i].Info())
  }

  /** Ids on the list are distinct and not empty, and the index leads from each to its record. */
  ghost predicate Indexed(tools: seq<ToolRecord>, byId: map<string, ToolRecord>) {
    && (forall i, j :: 0 <= i < j < |tools| ==> tools[i].id != tools[j].id)
    && (forall i :: 0 <= i < |tools| ==> tools[i].id in byId && byId[tools[i].id] == tools[i] && tools[i].id != "")
    && (forall id :: id in byId ==> byId[id] in tools && byId[id].id == id)
  }

  /** Closing the one record with this id is what closing every record with it comes to. */
  method CloseRecord(tools: seq<ToolRecord>, byId: map<string, ToolRecord>, id: string, ok: bool, summary: string)
    requires Indexed(tools, byId)
    modifies tools
    ensures Infos(tools) == Closed(old(Infos(tools)), id, ok, summary)
  {
    if id !in byId {
      assert forall i :: 0 <= i < |tools| ==> tools[i].id != id;
      return;
    }
    var prev := byId[id];
    ghost var before := Infos(tools);
    prev.done := true;
    prev.ok := ok;
    prev.summary := summary;
    forall i | 0 <= i < |tools| ensures Infos(tools)[i] == Closed(before, id, ok, summary)[i] {
      if tools[i].id == id {
        assert tools[i] == prev;
      } else {
        assert tools[i] != prev;
      }
    }
  }

  lemma KnownById(tools: seq<ToolRecord>, byId: map<string, ToolRecord>, id: string)
    requires Indexed(tools, byId)
    ensures id in byId <==> Known(Infos(tools), id)
  {
    if id in byId {
      var i :| 0 <= i < |tools| && tools[i] == byId[id];
      assert Infos(tools)[i].id == id;
    }
  }

  method AddRecord(tools: seq<ToolRecord>, byId: map<string, ToolRecord>, id: string, name: string, args: string)
    returns (tools': seq<ToolRecord>, byId': map<string, ToolRecord>)
    requires Indexed(tools, byId) && id != "" && id !in byId
    ensures Indexed(tools', byId') && tools' != [] && tools'[..|tools'| - 1] == tools && fresh(tools'[|tools'| - 1])
    ensures Infos(tools') == Infos(tools) + [ToolInfo(id, name, args, false, false, "")]
  {
    var t := new ToolRecord(id, name, args);
    byId' := byId[id := t];
    tools' := tools + [t];
    assert forall i :: 0 <= i < |tools| ==> tools'[i] == tools[i] && tools[i].id != id;
    assert tools'[|tools|] == t;
  }

  /** One event of the loop. */
  method TakeEvent(ev: REvent, reasoning: string, tools: seq<ToolRecord>, byId: map<string, ToolRecord>,
      ghost live: Live)
    returns (reasoning': string, tools': seq<ToolRecord>, byId': map<string, ToolRecord>)
    requires Indexed(tools, byId) && reasoning == live.reasoning && Infos(tools) == live.tools
    modifies tools
    ensures Indexed(tools', byId')
    ensures reasoning' == Reduce(live, ev).reasoning && Infos(tools') == Reduce(live, ev).tools
    ensures forall k :: 0 <= k < |tools'| ==> tools'[k] in tools || fresh(tools'[k])
  {
    hide Infos, Indexed, Closed, Known;
    reasoning', tools', byId' := reasoning, tools, byId;
    match ev.body {
      case ReasoningDelta(delta) => reasoning' := reasoning + delta;
      case ToolStarted(id, name, args) =>
        KnownById(tools, byId, id);
        if id != "" && id !in byId {
          tools', byId' := AddRecord(tools, byId, id, name, args);
          assert tools' == tools'[..|tools'| - 1] + [tools'[|tools'| - 1]];
        }
      case ToolFinished(id, ok, summary) => CloseRecord(tools, byId, id, ok, summary);
      case _ =>
    }
  }

  /** The trace agrees with the live fold on reasoning and tools, for every list of events. */
  method TraceFromEvents(events: seq<REvent>, ghost live: Live) returns (reasoning: string, tools: seq<ToolRecord>)
    requires live.reasoning == "" && live.tools == []
    ensures reasoning == Fold(live, events).reasoning
    ensures Infos(tools) == Fold(live, events).tools
  {
    hide Fold, Reduce, Infos, Indexed;
    reasoning, tools := "", [];
    var byId: map<string, ToolRecord> := map[];
    ghost var folded := live;
    NoTools(tools, byId);
    assert events[0..] == events;
    var i := 0;
    while i < |events|
      invariant 0 <= i <= |events|
      invariant Fold(folded, events[i..]) == Fold(live, events)
      invariant Indexed(tools, byId) && forall k :: 0 <= k < |tools| ==> fresh(tools[k])
      invariant reasoning == folded.reasoning && Infos(tools) == folded.tools
    {
      FoldStep(folded, events, i);
      ghost var next, before := Reduce(folded, events[i]), tools;
      reasoning, tools, byId := TakeEvent(events[i], reasoning, tools, byId, folded);
      folded := next;
      assert forall t :: t in before ==> fresh(t);
      i := i + 1;
    }
    FoldDone(folded, events[i..]);
  }

  lemma NoTools(tools: seq<ToolRecord>, byId: map<string, ToolRecord>)
    requires tools == [] && byId == map[]
    ensures Indexed(tools, byId) && Infos(tools) == []
  {}

  lemma FoldStep(live: Live, events: seq<REvent>, i: nat)
    requires i < |events|
    ensures Fold(live, events[i..]) == Fold(Reduce(live, events[i]), events[i + 1..])
  {
    assert events[i..][1..] == events[i + 1..];
  }

  lemma FoldDone(live: Live, events: seq<REvent>)
    requires events == []
    ensures Fold(live, events) == live
  {}
}
