/** The run, slot and wake protocol: any number of goroutines interleave, one SQL statement, mutex section or
    queue write at a time. Each step may also fail, before or after its effect. */
module Protocol {
  import opened Common
  import opened WakeQueue
  import opened Store

  type Thread = nat

  /** Where a goroutine stands between two atomic steps. T: tryStart and launch. U: startRun. P: Persist.Handle. */
  datatype Pc =
    | Idle
    | WakeAdd(conv: ConvId, report: Report)
    | TRead(conv: ConvId)
    | TDrop(conv: ConvId)
    | TTake(conv: ConvId)
    | TCreate(conv: ConvId, batch: seq<Report>)
    | TClaim(conv: ConvId, batch: seq<Report>, run: RunId)
    | TWrite(conv: ConvId, batch: seq<Report>, run: RunId)
    | TRestore(conv: ConvId, batch: seq<Report>)
    | UCreate(conv: ConvId)
    | UClaim(conv: ConvId, run: RunId)
    | UMessage(conv: ConvId, run: RunId)
    | UWrite(conv: ConvId, run: RunId)
    | PInsert(ev: Event, row: RunRow)
    | PSubagent(ev: Event, row: RunRow, inserted: bool)
    | PAnswer(ev: Event, row: RunRow)
    | PSave(ev: Event, row: RunRow)
    | PClear(ev: Event, row: RunRow)
    | PNotify(conv: ConvId)

  /** A start command on the commands topic. */
  datatype Command = Command(conv: ConvId, run: RunId, reports: seq<Report>)

  datatype SlotOp = Took(conv: ConvId, run: RunId) | Freed(conv: ConvId, run: RunId)

  datatype State = State(
    db: Db,
    queue: map<ConvId, seq<Report>>,
    pcs: map<Thread, Pc>,
    commands: seq<Command>,
    accepted: set<(ConvId, string)>, // every report id ever queued
    slotLog: seq<SlotOp>,            // every change of a slot, oldest first
    notified: seq<RunId>)            // every call of OnRunCleared, by the run that was cleared

  datatype Outcome = Fine | FailsBefore | FailsAfter

  datatype Action =
    | CreateConversation(conv: ConvId)
    | DeleteConversation(conv: ConvId)
    | ReceiveWake(thread: Thread, conv: ConvId, report: Report)
    | PostMessage(thread: Thread, conv: ConvId)
    | Deliver(thread: Thread, ev: Event)
    | Advance(thread: Thread, outcome: Outcome, newId: RunId)

  const START := State(Db(map[], map[], map[], map[]), map[], map[], [], {}, [], [])

  function At(s: State, t: Thread): Pc {
    if t in s.pcs then s.pcs[t] else Idle
  }

  function Goto(s: State, t: Thread, pc: Pc): State {
    s.(pcs := s.pcs[t := pc])
  }

  predicate Live(s: State, c: ConvId) {
    c in s.db.convs && !s.db.convs[c].deleted
  }

  function Step(s: State, a: Action): State {
    match a
    case CreateConversation(c) =>
      if c in s.db.convs then s else s.(db := s.db.(convs := s.db.convs[c := Conv(None, false)]))
    case DeleteConversation(c) =>
      if c in s.db.convs then s.(db := s.db.(convs := s.db.convs[c := s.db.convs[c].(deleted := true)])) else s
    case ReceiveWake(t, c, report) =>
      if At(s, t).Idle? && Live(s, c) then Goto(s, t, WakeAdd(c, report)) else s
    case PostMessage(t, c) =>
      if At(s, t).Idle? && Live(s, c) then Goto(s, t, UCreate(c)) else s
    case Deliver(t, ev) =>
      if At(s, t).Idle? && ev.run != "" && ev.number > 0 && ev.run in s.db.runs
      then Goto(s, t, PInsert(ev, s.db.runs[ev.run])) else s
    case Advance(t, o, newId) =>
      var pc := At(s, t);
      if pc.Idle? then s
      else if InWakes(pc) then AdvanceWakes(s, t, pc, o, newId)
      else if InPost(pc) then AdvancePost(s, t, pc, o, newId)
      else AdvancePersist(s, t, pc, o)
  }

  predicate InWakes(pc: Pc) {
    pc.WakeAdd? || pc.TRead? || pc.TDrop? || pc.TTake? || pc.TCreate? || pc.TClaim? || pc.TWrite? || pc.TRestore?
  }

  predicate InPost(pc: Pc) {
    pc.UCreate? || pc.UClaim? || pc.UMessage? || pc.UWrite?
  }

  predicate InPersist(pc: Pc) {
    pc.PInsert? || pc.PSubagent? || pc.PAnswer? || pc.PSave? || pc.PClear? || pc.PNotify?
  }

  function Queued(s: State, c: ConvId): seq<Report> {
    if c in s.queue then s.queue[c] else []
  }

  /** The conditional update that takes a slot. */
  function TakeSlot(s: State, c: ConvId, r: RunId): State {
    if Claimable(s.db, c) then s.(db := Claim(s.db, c, r), slotLog := s.slotLog + [Took(c, r)]) else s
  }

  function FreeSlot(s: State, c: ConvId, r: RunId): State {
    if Holds(s.db, c, r) then s.(db := Clear(s.db, c, r), slotLog := s.slotLog + [Freed(c, r)]) else s
  }

  function Create(s: State, r: RunId, c: ConvId): State {
    s.(db := CreateRun(s.db, r, c))
  }

  function Send(s: State, cmd: Command): State {
    s.(commands := s.commands + [cmd])
  }

  function AdvanceWakes(s: State, t: Thread, pc: Pc, o: Outcome, newId: RunId): State
    requires InWakes(pc)
  {
    match pc
    case WakeAdd(c, report) =>
      var queue := s.queue[c := Added(Queued(s, c), report)];
      Goto(s.(queue := queue, accepted := s.accepted + {(c, report.id)}), t, TRead(c))
    case TRead(c) =>
      if !o.Fine? then Goto(s, t, Idle)
      else if !Live(s, c) then Goto(s, t, TDrop(c))
      else if s.db.convs[c].active.Some? then Goto(s, t, Idle)
      else Goto(s, t, TTake(c))
    case TDrop(c) => Goto(s.(queue := s.queue - {c}), t, Idle)
    case TTake(c) =>
      if Queued(s, c) == [] then Goto(s.(queue := s.queue - {c}), t, Idle)
      else Goto(s.(queue := s.queue - {c}), t, TCreate(c, Queued(s, c)))
    case TCreate(c, batch) =>
      if o.FailsBefore? || newId in s.db.runs then Goto(s, t, TRestore(c, batch))
      else Goto(Create(s, newId, c), t, if o.Fine? then TClaim(c, batch, newId) else TRestore(c, batch))
    case TClaim(c, batch, r) =>
      if o.FailsBefore? || !Claimable(s.db, c) then Goto(s, t, TRestore(c, batch))
      else Goto(TakeSlot(s, c, r), t, if o.Fine? then TWrite(c, batch, r) else TRestore(c, batch))
    case TWrite(c, batch, r) =>
      if o.FailsBefore? then Goto(s, t, TRestore(c, batch))
      else Goto(Send(s, Command(c, r, batch)), t, if o.Fine? then Idle else TRestore(c, batch))
    case TRestore(c, batch) =>
      Goto(s.(queue := s.queue[c := if c in s.queue then Merged(batch, s.queue[c]) else batch]), t, Idle)
  }

  function AdvancePost(s: State, t: Thread, pc: Pc, o: Outcome, newId: RunId): State
    requires InPost(pc)
  {
    match pc
    case UCreate(c) =>
      if o.FailsBefore? || newId in s.db.runs then Goto(s, t, Idle)
      else Goto(Create(s, newId, c), t, if o.Fine? then UClaim(c, newId) else Idle)
    case UClaim(c, r) =>
      if o.FailsBefore? || !Claimable(s.db, c) then Goto(s, t, Idle)
      else Goto(TakeSlot(s, c, r), t, if o.Fine? then UMessage(c, r) else Idle)
    case UMessage(c, r) => Goto(s, t, if o.Fine? then UWrite(c, r) else Idle)
    case UWrite(c, r) => Goto(if o.FailsBefore? then s else Send(s, Command(c, r, [])), t, Idle)
  }

  function AdvancePersist(s: State, t: Thread, pc: Pc, o: Outcome): State
    requires InPersist(pc)
  {
    if o.FailsBefore? then Goto(s, t, Idle)
    else
      match pc
      case PInsert(ev, row) =>
        Goto(s.(db := InsertEvent(s.db, ev)), t,
             if o.Fine? then PSubagent(ev, row, KeyOf(ev) !in s.db.journal) else Idle)
      case PSubagent(ev, row, inserted) =>
        Goto(s.(db := EnsureSubagentRun(s.db, row.conv, ev)), t, if o.Fine? && inserted then PAnswer(ev, row) else Idle)
      case PAnswer(ev, row) => Goto(s.(db := InsertAnswer(s.db, row, ev)), t, if o.Fine? then PSave(ev, row) else Idle)
      case PSave(ev, row) =>
        Goto(s.(db := SaveRun(s.db, row, ev)), t, if o.Fine? && ev.payload.Finished? then PClear(ev, row) else Idle)
      case PClear(ev, row) =>
        if o.Fine? && Holds(s.db, row.conv, ev.run) then
          Goto(FreeSlot(s, row.conv, ev.run).(notified := s.notified + [ev.run]), t, PNotify(row.conv))
        else Goto(FreeSlot(s, row.conv, ev.run), t, Idle)
      case PNotify(c) => Goto(s, t, if o.Fine? && Live(s, c) then TRead(c) else Idle)
  }

  /** The state after a history of steps. */
  function Exec(actions: seq<Action>): State {
    if actions == [] then START else Step(Exec(actions[..|actions| - 1]), actions[|actions| - 1])
  }
}
