/** The in-process hub behind the event streams: subscriptions over two maps, bounded channels, fan-out. */
module Hub {
  import opened Common

  const MAX_SUBS_PER_RUN: nat := 16
  const MAX_SUBS_PER_INST: nat := 2000
  const CHAN_BUF: nat := 64

  datatype Event = Event(runId: string, convId: string, seqNo: int, kind: string, payload: string)

  datatype Topic = RunTopic(key: string) | ConvTopic(key: string)

  type ChanId = nat

  /** A channel: how much had been published when it was made, what its reader has taken, and what waits. */
  datatype Chan = Chan(topic: Topic, since: nat, taken: seq<Event>, buffer: seq<Event>, closed: bool)

  /** What publishing an event means for a topic, if anything. */
  function Heard(t: Topic, ev: Event): seq<Event> {
    match t
    case RunTopic(key) => if ev.runId == key then [ev] else []
    case ConvTopic(key) => if ev.convId == key && ev.kind == "run.started" then [ev.(kind := "run.created")] else []
  }

  function HeardAll(t: Topic, evs: seq<Event>): seq<Event> {
    if evs == [] then [] else HeardAll(t, evs[..|evs| - 1]) + Heard(t, evs[|evs| - 1])
  }

  lemma HeardAllSnoc(t: Topic, evs: seq<Event>, ev: Event)
    ensures HeardAll(t, evs + [ev]) == HeardAll(t, evs) + Heard(t, ev)
  {
    assert (evs + [ev])[..|evs|] == evs;
  }

  /** A send that gives up when the buffer is full. */
  function Offer(ch: Chan, ev: Event): Chan {
    if |ch.buffer| < CHAN_BUF then ch.(buffer := ch.buffer + [ev]) else ch
  }

  /** The channel got an in-order selection of what was published on its topic since it was made. */
  ghost predicate ChanOk(ch: Chan, history: seq<Event>) {
    && |ch.buffer| <= CHAN_BUF && ch.since <= |history|
    && Subsequence(ch.taken + ch.buffer, HeardAll(ch.topic, history[ch.since..]))
  }

  lemma SubsequenceKeep<T>(s: seq<T>, t: seq<T>, x: T)
    requires Subsequence(s, t)
    ensures Subsequence(s, t + [x]) && Subsequence(s + [x], t + [x])
  {
    assert (t + [x])[..|t|] == t && (s + [x])[..|s|] == s;
  }

  lemma PublishedKeepsChan(ch: Chan, history: seq<Event>, ev: Event, sent: bool)
    requires ChanOk(ch, history)
    requires sent ==> Heard(ch.topic, ev) != []
    ensures ChanOk(if sent then Offer(ch, Heard(ch.topic, ev)[0]) else ch, history + [ev])
  {
    hide Subsequence, HeardAll;
    var before := history[ch.since..];
    assert (history + [ev])[ch.since..] == before + [ev];
    HeardAllSnoc(ch.topic, before, ev);
    var heard := HeardAll(ch.topic, before);
    if Heard(ch.topic, ev) == [] {
      assert heard + [] == heard;
    } else {
      var told := Heard(ch.topic, ev)[0];
      assert Heard(ch.topic, ev) == [told];
      hide Heard;
      SubsequenceKeep(ch.taken + ch.buffer, heard, told);
      assert ch.taken + (ch.buffer + [told]) == ch.taken + ch.buffer + [told];
    }
  }

  // The hub's tables as a value

  datatype Tables = Tables(
    runs: map<string, set<ChanId>>,
    convs: map<string, set<ChanId>>,
    total: int,
    chans: map<ChanId, Chan>, // every channel ever made
    next: ChanId,
    history: seq<Event>)      // everything published

  function Subs(h: Tables, t: Topic): set<ChanId> {
    match t
    case RunTopic(key) => if key in h.runs then h.runs[key] else {}
    case ConvTopic(key) => if key in h.convs then h.convs[key] else {}
  }

  /** A topic with these subscribers; nobody left means no entry. */
  function Entry(m: map<string, set<ChanId>>, key: string, subs: set<ChanId>): map<string, set<ChanId>> {
    if subs == {} then m - {key} else m[key := subs]
  }

  function WithSubs(h: Tables, t: Topic, subs: set<ChanId>): Tables {
    match t
    case RunTopic(key) => h.(runs := Entry(h.runs, key, subs))
    case ConvTopic(key) => h.(convs := Entry(h.convs, key, subs))
  }

  predicate IsOpen(h: Tables, c: ChanId) {
    c in h.chans && !h.chans[c].closed
  }

  predicate OpenOn(h: Tables, c: ChanId, t: Topic) {
    IsOpen(h, c) && h.chans[c].topic == t
  }

  function Open(h: Tables): set<ChanId> {
    set c | c in h.chans && IsOpen(h, c)
  }

  /** The subscribers of a topic are exactly the open channels made for it, and no topic without any is listed. */
  ghost predicate Indexed(h: Tables) {
    && (forall t, c :: c in Subs(h, t) <==> OpenOn(h, c, t))
    && (forall k :: k in h.runs ==> h.runs[k] != {})
    && (forall k :: k in h.convs ==> h.convs[k] != {})
  }

  /** The counter counts the channels over both maps, and the limits hold. */
  ghost predicate Counted(h: Tables) {
    h.total == |Open(h)| <= MAX_SUBS_PER_INST && forall t :: |Subs(h, t)| <= MAX_SUBS_PER_RUN
  }

  ghost predicate Delivered(h: Tables) {
    forall c :: c in h.chans ==> c < h.next && ChanOk(h.chans[c], h.history)
  }

  ghost predicate Valid(h: Tables) {
    Indexed(h) && Counted(h) && Delivered(h)
  }

  function Subscribed(h: Tables, t: Topic): Tables {
    WithSubs(h, t, Subs(h, t) + {h.next}).(
      chans := h.chans[h.next := Chan(t, |h.history|, [], [], false)],
      next := h.next + 1,
      total := h.total + 1)
  }

  predicate MaySubscribe(h: Tables, t: Topic) {
    h.total < MAX_SUBS_PER_INST && |Subs(h, t)| < MAX_SUBS_PER_RUN
  }

  function Cancelled(h: Tables, c: ChanId, t: Topic): Tables {
    if c !in Subs(h, t) || c !in h.chans then h
    else WithSubs(h, t, Subs(h, t) - {c}).(chans := h.chans[c := h.chans[c].(closed := true)], total := h.total - 1)
  }

  /** The limits in plain numbers. */
  lemma SubscribeLimits(h: Tables, t: Topic)
    requires Valid(h)
    ensures |Open(h)| <= 2000 && |Subs(h, t)| <= 16
    ensures MaySubscribe(h, t) <==> |Open(h)| < 2000 && |Subs(h, t)| < 16
  {
    hide Subs, Indexed, Delivered;
  }

  lemma SubscribedSubs(h: Tables, t: Topic, u: Topic)
    ensures Subs(Subscribed(h, t), u) == if u == t then Subs(h, t) + {h.next} else Subs(h, u)
  {}

  lemma SubscribedOpen(h: Tables, t: Topic)
    ensures Open(Subscribed(h, t)) == Open(h) + {h.next}
  {}

  lemma SubscribedIndexed(h: Tables, t: Topic)
    requires Indexed(h) && Delivered(h)
    ensures Indexed(Subscribed(h, t))
  {
    hide ChanOk, Subs;
    var n := Subscribed(h, t);
    forall u, c ensures c in Subs(n, u) <==> IsOpen(n, c) && n.chans[c].topic == u {
      SubscribedSubs(h, t, u);
      assert c == h.next ==> !IsOpen(h, c);
    }
  }

  lemma SubscribedCounted(h: Tables, t: Topic)
    requires Counted(h) && MaySubscribe(h, t) && !IsOpen(h, h.next)
    ensures Counted(Subscribed(h, t))
  {
    hide Subs;
    SubscribedOpen(h, t);
    forall u ensures |Subs(Subscribed(h, t), u)| <= MAX_SUBS_PER_RUN {
      SubscribedSubs(h, t, u);
    }
  }

  lemma SubscribedDelivered(h: Tables, t: Topic)
    requires Delivered(h)
    ensures Delivered(Subscribed(h, t))
  {
    assert h.history[|h.history|..] == [];
    hide Subs;
  }

  lemma SubscribedKeeps(h: Tables, t: Topic)
    requires Valid(h) && MaySubscribe(h, t)
    ensures Valid(Subscribed(h, t)) && h.next !in h.chans
  {
    SubscribedIndexed(h, t);
    SubscribedCounted(h, t);
    SubscribedDelivered(h, t);
  }

  lemma CancelledSubs(h: Tables, c: ChanId, t: Topic, u: Topic)
    ensures Subs(Cancelled(h, c, t), u) == if u == t && c in h.chans then Subs(h, t) - {c} else Subs(h, u)
  {}

  lemma CancelledOpen(h: Tables, c: ChanId, t: Topic)
    requires c in Subs(h, t) && c in h.chans
    ensures Open(Cancelled(h, c, t)) == Open(h) - {c}
  {
    assert forall d :: IsOpen(Cancelled(h, c, t), d) <==> d != c && IsOpen(h, d);
  }

  lemma CancelledIndexed(h: Tables, c: ChanId, t: Topic, u: Topic, d: ChanId)
    requires Indexed(h) && c in Subs(h, t)
    ensures d in Subs(Cancelled(h, c, t), u) <==> OpenOn(Cancelled(h, c, t), d, u)
  {
    assert IsOpen(h, c);
    CancelledSubs(h, c, t, u);
    hide Subs;
  }

  lemma CancelledCounted(h: Tables, c: ChanId, t: Topic)
    requires Counted(h) && c in Subs(h, t) && IsOpen(h, c)
    ensures Counted(Cancelled(h, c, t))
  {
    CancelledOpen(h, c, t);
    assert c in Open(h);
    forall u ensures |Subs(Cancelled(h, c, t), u)| <= MAX_SUBS_PER_RUN {
      CancelledSubs(h, c, t, u);
      assert |Subs(h, u)| <= MAX_SUBS_PER_RUN && |Subs(h, t)| <= MAX_SUBS_PER_RUN;
      assert |Subs(h, t)| == |Subs(h, t) - {c}| + 1;
    }
  }

  /** The counter goes down with the channel; the tables stay sound. */
  lemma CancelledKeeps(h: Tables, c: ChanId, t: Topic)
    requires Valid(h)
    ensures Valid(Cancelled(h, c, t))
  {
    if c in Subs(h, t) {
      assert IsOpen(h, c);
      CancelledCounted(h, c, t);
      CancelledRest(h, c, t);
      hide Subs, Counted, Delivered;
      CancelledAllIndexed(h, c, t);
    } else {
      assert Cancelled(h, c, t) == h;
    }
  }

  lemma CancelledAllIndexed(h: Tables, c: ChanId, t: Topic)
    requires Indexed(h) && c in Subs(h, t)
    ensures forall u, d ::
      d in Subs(Cancelled(h, c, t), u) <==> OpenOn(Cancelled(h, c, t), d, u)
  {
    hide Subs, Cancelled, Indexed;
    forall u, d ensures d in Subs(Cancelled(h, c, t), u) <==> OpenOn(Cancelled(h, c, t), d, u) {
      CancelledIndexed(h, c, t, u, d);
    }
  }

  lemma CancelledRest(h: Tables, c: ChanId, t: Topic)
    requires Valid(h) && c in Subs(h, t)
    ensures Delivered(Cancelled(h, c, t))
    ensures forall k :: k in Cancelled(h, c, t).runs ==> Cancelled(h, c, t).runs[k] != {}
    ensures forall k :: k in Cancelled(h, c, t).convs ==> Cancelled(h, c, t).convs[k] != {}
  {
    hide Subsequence, HeardAll;
  }

  /** A second cancel changes nothing, and neither does one with a topic the channel is not on. */
  lemma CancelTwice(h: Tables, c: ChanId, t: Topic)
    requires Valid(h)
    ensures Cancelled(Cancelled(h, c, t), c, t) == Cancelled(h, c, t)
    ensures c in h.chans && h.chans[c].topic != t ==> Cancelled(h, c, t) == h
  {
    hide Subs, ChanOk;
    CancelledSubs(h, c, t, t);
  }

  /** What a published event does to one channel. */
  function Told(ch: Chan, ev: Event): Chan {
    if !ch.closed && Heard(ch.topic, ev) != [] then Offer(ch, Heard(ch.topic, ev)[0]) else ch
  }

  function Published(h: Tables, ev: Event): Tables {
    h.(chans := map c | c in h.chans :: Told(h.chans[c], ev), history := h.history + [ev])
  }

  /** What a publish does to a channel, in plain words: a subscriber of the run gets the event, on a start a subscriber
      of the conversation gets an event that tells of the creation, if there is room for it; nobody
      else gets anything. */
  lemma PublishTells(h: Tables, ev: Event, c: ChanId)
    requires c in h.chans
    ensures c in Published(h, ev).chans
    ensures
      var ch, ch' := h.chans[c], Published(h, ev).chans[c];
      var room := !ch.closed && |ch.buffer| < 64;
      && ch' == ch.(buffer := ch'.buffer)
      && (ch.topic == RunTopic(ev.runId) && room ==> ch'.buffer == ch.buffer + [ev])
      && (ch.topic == ConvTopic(ev.convId) && ev.kind == "run.started" && room ==>
            ch'.buffer == ch.buffer + [Event(ev.runId, ev.convId, ev.seqNo, "run.created", ev.payload)])
      && (!room ==> ch'.buffer == ch.buffer)
      && (ch.topic != RunTopic(ev.runId) && ch.topic != ConvTopic(ev.convId) ==> ch'.buffer == ch.buffer)
      && (ch.topic == ConvTopic(ev.convId) && ev.kind != "run.started" ==> ch'.buffer == ch.buffer)
  {
  }

  /** The channel has got everything published on its topic since it was made. */
  ghost predicate HasAll(ch: Chan, history: seq<Event>) {
    ch.since <= |history| && ch.taken + ch.buffer == HeardAll(ch.topic, history[ch.since..])
  }

  lemma TakingKeepsAll(ch: Chan, history: seq<Event>)
    requires HasAll(ch, history) && ch.buffer != []
    ensures HasAll(ch.(taken := ch.taken + [ch.buffer[0]], buffer := ch.buffer[1..]), history)
  {
    assert ch.taken + [ch.buffer[0]] + ch.buffer[1..] == ch.taken + ch.buffer;
  }

  lemma TellingKeepsAll(ch: Chan, history: seq<Event>, ev: Event)
    requires HasAll(ch, history) && !ch.closed && |ch.buffer| < 64
    ensures HasAll(Told(ch, ev), history + [ev])
  {
    var before := history[ch.since..];
    assert (history + [ev])[ch.since..] == before + [ev];
    HeardAllSnoc(ch.topic, before, ev);
    HeardOnce(ch.topic, ev);
    hide HeardAll, Heard;
  }

  /** A new channel has, and one that has keeps having it through every publish it has room for; taking an event keeps
      it too. So only a full channel loses events. */
  lemma OnlyFullChannelsLose(h: Tables, ev: Event, c: ChanId, t: Topic)
    ensures h.next in Subscribed(h, t).chans && HasAll(Subscribed(h, t).chans[h.next], h.history)
    ensures c in h.chans && !h.chans[c].closed && |h.chans[c].buffer| < 64 && HasAll(h.chans[c], h.history) ==>
      c in Published(h, ev).chans && HasAll(Published(h, ev).chans[c], h.history + [ev])
    ensures c in h.chans && HasAll(h.chans[c], h.history) ==>
      c in Received(h, c).chans && HasAll(Received(h, c).chans[c], h.history)
  {
    assert h.history[|h.history|..] == [];
    hide Told;
    if c in h.chans && HasAll(h.chans[c], h.history) {
      if !h.chans[c].closed && |h.chans[c].buffer| < 64 {
        TellingKeepsAll(h.chans[c], h.history, ev);
      }
      if h.chans[c].buffer != [] {
        TakingKeepsAll(h.chans[c], h.history);
      }
    }
    hide HasAll;
  }

  lemma HeardOnce(t: Topic, ev: Event)
    ensures Heard(t, ev) == [] || Heard(t, ev) == [Heard(t, ev)[0]]
  {}

  lemma PublishedKeeps(h: Tables, ev: Event)
    requires Valid(h)
    ensures Valid(Published(h, ev))
  {
    PublishedIndexed(h, ev);
    PublishedDelivered(h, ev);
  }

  lemma PublishedIndexed(h: Tables, ev: Event)
    requires Indexed(h) && Counted(h)
    ensures Indexed(Published(h, ev)) && Counted(Published(h, ev))
  {
    var n := Published(h, ev);
    assert forall c :: IsOpen(n, c) <==> IsOpen(h, c);
    assert Open(n) == Open(h);
    assert forall t :: Subs(n, t) == Subs(h, t);
    forall u, d ensures d in Subs(n, u) <==> IsOpen(n, d) && n.chans[d].topic == u {
      hide Subs, Heard;
      assert d in Subs(h, u) <==> IsOpen(h, d) && h.chans[d].topic == u;
    }
  }

  lemma PublishedDelivered(h: Tables, ev: Event)
    requires Delivered(h)
    ensures Delivered(Published(h, ev))
  {
    hide ChanOk, Heard, Offer;
    forall c | c in h.chans ensures ChanOk(Published(h, ev).chans[c], h.history + [ev]) {
      var ch := h.chans[c];
      PublishedKeepsChan(ch, h.history, ev, !ch.closed && Heard(ch.topic, ev) != []);
    }
  }

  /** The reader of a channel takes the first event that waits. */
  function Received(h: Tables, c: ChanId): Tables {
    if c !in h.chans || h.chans[c].buffer == [] then h
    else
      var ch := h.chans[c];
      h.(chans := h.chans[c := ch.(taken := ch.taken + [ch.buffer[0]], buffer := ch.buffer[1..])])
  }

  lemma ReceivedKeepsChan(ch: Chan, history: seq<Event>)
    requires ChanOk(ch, history) && ch.buffer != []
    ensures ChanOk(ch.(taken := ch.taken + [ch.buffer[0]], buffer := ch.buffer[1..]), history)
  {
    assert ch.taken + [ch.buffer[0]] + ch.buffer[1..] == ch.taken + ch.buffer;
  }

  lemma ReceivedKeeps(h: Tables, c: ChanId)
    requires Valid(h)
    ensures Valid(Received(h, c))
  {
    hide ChanOk;
    if c in h.chans && h.chans[c].buffer != [] { ReceivedKeepsChan(h.chans[c], h.history); }
    var n := Received(h, c);
    assert forall d :: IsOpen(n, d) <==> IsOpen(h, d);
    assert Open(n) == Open(h);
    assert forall t :: Subs(n, t) == Subs(h, t);
    hide Subs;
  }

  class Hub {
    var runs: map<string, set<ChanId>>
    var convs: map<string, set<ChanId>>
    var total: int
    var chans: map<ChanId, Chan>
    var next: ChanId
    var history: seq<Event> // not in the program: what has been published, to state what channels get

    ghost function Value(): Tables
      reads this
    {
      Tables(runs, convs, total, chans, next, history)
    }

    constructor ()
      ensures Valid(Value()) && Value() == Tables(map[], map[], 0, map[], 0, [])
    {
      runs, convs, total, chans, next, history := map[], map[], 0, map[], 0, [];
    }

    /** subscribe over one of the two maps; the key gets its set before the limit of the key is looked at. */
    method Enter(m: map<string, set<ChanId>>, t: Topic) returns (ch: Option<ChanId>, after: map<string, set<ChanId>>)
      requires m == if t.RunTopic? then runs else convs
      modifies this`total, this`chans, this`next
      ensures ch == if MaySubscribe(old(Value()), t) then Some(old(next)) else None
      ensures ch.None? ==> Value() == old(Value()) && after == m
      ensures ch.Some? ==>
                && total == old(total) + 1 && next == old(next) + 1
                && chans == old(chans)[old(next) := Chan(t, |history|, [], [], false)]
                && after == m[t.key := Subs(old(Value()), t) + {old(next)}]
    {
      after := m;
      if total >= MAX_SUBS_PER_INST { return None, m; }
      if t.key !in after { after := after[t.key := {}]; }
      if |after[t.key]| >= MAX_SUBS_PER_RUN { return None, after; }
      chans := chans[next := Chan(t, |history|, [], [], false)];
      ch := Some(next);
      after := after[t.key := after[t.key] + {next}];
      next := next + 1;
      total := total + 1;
    }

    method Subscribe(t: Topic) returns (ch: Option<ChanId>)
      requires Valid(Value())
      modifies this
      ensures Valid(Value())
      ensures ch == if MaySubscribe(old(Value()), t) then Some(old(next)) else None
      ensures Value() == if ch.Some? then Subscribed(old(Value()), t) else old(Value())
    {
      hide Valid, Subs;
      if MaySubscribe(Value(), t) { SubscribedKeeps(Value(), t); }
      if t.RunTopic? {
        ch, runs := Enter(runs, t);
      } else {
        ch, convs := Enter(convs, t);
      }
    }

    /** The closure handed out with a channel, over one of the two maps. */
    method Leave(m: map<string, set<ChanId>>, key: string, c: ChanId) returns (after: map<string, set<ChanId>>)
      requires c in chans && (key in m ==> m[key] != {})
      modifies this`total, this`chans
      ensures key in m && c in m[key] ==>
                && after == Entry(m, key, m[key] - {c})
                && total == old(total) - 1 && chans == old(chans)[c := old(chans)[c].(closed := true)]
      ensures !(key in m && c in m[key]) ==> after == m && total == old(total) && chans == old(chans)
    {
      after := m;
      if key in m {
        var s := m[key];
        if c in s {
          s := s - {c};
          after := m[key := s];
          total := total - 1;
          chans := chans[c := chans[c].(closed := true)];
        }
        if s == {} {
          after := after - {key};
          assert after == m - {key};
        }
      }
    }

    method Cancel(c: ChanId, t: Topic)
      requires Valid(Value()) && c in chans && chans[c].topic == t
      modifies this
      ensures Valid(Value()) && Value() == Cancelled(old(Value()), c, t)
    {
      CancelledKeeps(Value(), c, t);
      NobodyUnlisted(Value(), t);
      hide Valid, Entry;
      if t.RunTopic? {
        runs := Leave(runs, t.key, c);
      } else {
        convs := Leave(convs, t.key, c);
      }
    }

    /** Sending on a closed channel would panic. */
    method Send(c: ChanId, ev: Event)
      requires c in chans && !chans[c].closed
      modifies this`chans
      ensures chans == old(chans)[c := Offer(old(chans)[c], ev)]
    {
      if |chans[c].buffer| < CHAN_BUF {
        chans := chans[c := chans[c].(buffer := chans[c].buffer + [ev])];
      } else {
        assert chans[c := chans[c]] == chans;
      }
    }

    method SendAll(subs: set<ChanId>, ev: Event)
      requires forall c :: c in subs ==> c in chans && !chans[c].closed
      modifies this`chans
      ensures chans == Sent(old(chans), subs, ev)
    {
      hide Sent, Offer;
      var left := subs;
      ghost var before := chans;
      SentNone(before, ev);
      assert subs - left == {};
      while left != {}
        modifies this`chans
        invariant left <= subs && chans == Sent(before, subs - left, ev)
        decreases |left|
      {
        var c :| c in left;
        SentMore(before, subs - left, c, ev);
        Send(c, ev);
        assert subs - (left - {c}) == (subs - left) + {c};
        left := left - {c};
      }
      assert subs - left == subs;
    }

    method Publish(ev: Event)
      requires Valid(Value())
      modifies this
      ensures Valid(Value()) && Value() == Published(old(Value()), ev)
    {
      ghost var h := Value();
      PublishedKeeps(h, ev);
      SubscribersOpen(h, RunTopic(ev.runId));
      SentIsTold(h, ev);
      SubsIs(h, ev.runId);
      SubsIs(h, ev.convId);
      hide Valid, Subs, Published, Offer, Sent;
      SendAll(if ev.runId in runs then runs[ev.runId] else {}, ev);
      if ev.kind == "run.started" {
        var created := ev.(kind := "run.created");
        SendAll(if ev.convId in convs then convs[ev.convId] else {}, created);
      }
      history := history + [ev];
    }

    method Receive(c: ChanId) returns (ev: Option<Event>)
      requires Valid(Value()) && c in chans
      modifies this`chans
      ensures Valid(Value()) && Value() == Received(old(Value()), c)
      ensures ev == if old(chans)[c].buffer == [] then None else Some(old(chans)[c].buffer[0])
    {
      ReceivedKeeps(Value(), c);
      if chans[c].buffer == [] { return None; }
      ev := Some(chans[c].buffer[0]);
      chans := chans[c := chans[c].(taken := chans[c].taken + [chans[c].buffer[0]], buffer := chans[c].buffer[1..])];
    }
  }

  function Sent(chans: map<ChanId, Chan>, subs: set<ChanId>, ev: Event): map<ChanId, Chan> {
    map c | c in chans :: if c in subs then Offer(chans[c], ev) else chans[c]
  }

  lemma SentNone(chans: map<ChanId, Chan>, ev: Event)
    ensures Sent(chans, {}, ev) == chans
  {}

  lemma SentMore(chans: map<ChanId, Chan>, subs: set<ChanId>, c: ChanId, ev: Event)
    requires c in chans && c !in subs
    ensures c in Sent(chans, subs, ev) && Sent(chans, subs, ev)[c] == chans[c]
    ensures Sent(chans, subs + {c}, ev) == Sent(chans, subs, ev)[c := Offer(chans[c], ev)]
  {
    hide Offer;
  }

  lemma NobodyUnlisted(h: Tables, t: Topic)
    requires Valid(h)
    ensures t.RunTopic? && t.key in h.runs ==> h.runs[t.key] != {}
    ensures t.ConvTopic? && t.key in h.convs ==> h.convs[t.key] != {}
  {}

  lemma SubsIs(h: Tables, key: string)
    ensures Subs(h, RunTopic(key)) == if key in h.runs then h.runs[key] else {}
    ensures Subs(h, ConvTopic(key)) == if key in h.convs then h.convs[key] else {}
  {}

  lemma SubscribersOpen(h: Tables, t: Topic)
    requires Indexed(h)
    ensures forall c :: c in Subs(h, t) ==> IsOpen(h, c) && h.chans[c].topic == t
  {
    hide Subs;
  }

  /** Walking over the subscribers of the run, then over those of the conversation, tells every channel once
      what it is to be told. */
  lemma SentIsTold(h: Tables, ev: Event)
    requires Valid(h)
    ensures var created := ev.(kind := "run.created");
            var first := Sent(h.chans, Subs(h, RunTopic(ev.runId)), ev);
            var all := if ev.kind == "run.started" then Sent(first, Subs(h, ConvTopic(ev.convId)), created) else first;
            && Published(h, ev) == h.(chans := all, history := h.history + [ev])
            && forall c :: c in Subs(h, ConvTopic(ev.convId)) ==> c in first && !first[c].closed
  {
    var created := ev.(kind := "run.created");
    var first := Sent(h.chans, Subs(h, RunTopic(ev.runId)), ev);
    var all := if ev.kind == "run.started" then Sent(first, Subs(h, ConvTopic(ev.convId)), created) else first;
    hide Subs, Offer, Counted, Delivered;
    forall c | c in h.chans ensures all[c] == Told(h.chans[c], ev) {
      assert forall t :: c in Subs(h, t) <==> IsOpen(h, c) && h.chans[c].topic == t;
    }
    assert Published(h, ev).chans == all;
    SubscribersOpen(h, ConvTopic(ev.convId));
    SubscribersOpen(h, RunTopic(ev.runId));
  }
}
