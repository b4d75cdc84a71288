/** The in-memory wake queue of subagent_wake.go: reports of finished subagents, batched a conversation. */
module WakeQueue {

  datatype Report = Report(id: string, status: string, path: string)

  function Ids(reports: seq<Report>): set<string> {
    set r | r in reports :: r.id
  }

  predicate DistinctIds(reports: seq<Report>) {
    forall i, j :: 0 <= i < j < |reports| ==> reports[i].id != reports[j].id
  }

  predicate ContainsReport(reports: seq<Report>, id: string) {
    exists i :: 0 <= i < |reports| && reports[i].id == id
  }

  /** A report takes the place of one with its id, or comes last. */
  function Added(reports: seq<Report>, report: Report): seq<Report> {
    if reports == [] then [report]
    else if reports[0].id == report.id then [report] + reports[1..]
    else [reports[0]] + Added(reports[1..], report)
  }

  /** What restoring gives: the taken reports, then the current ones under other ids. */
  function Merged(taken: seq<Report>, current: seq<Report>): seq<Report> {
    if current == [] then taken
    else
      var front, last := current[..|current| - 1], current[|current| - 1];
      if ContainsReport(taken, last.id) then Merged(taken, front) else Merged(taken, front) + [last]
  }

  /** What scanning position i decides. */
  lemma AddedAt(reports: seq<Report>, i: nat, report: Report)
    requires i < |reports|
    ensures
      var here := reports[..i] + Added(reports[i..], report);
      if reports[i].id == report.id then here == reports[i := report]
      else here == reports[..i + 1] + Added(reports[i + 1..], report)
  {
    assert reports[i..][1..] == reports[i + 1..];
  }

  lemma AddedNil(reports: seq<Report>, report: Report)
    ensures Added(reports, report) == reports[..0] + Added(reports[0..], report)
    ensures reports[..|reports|] + Added(reports[|reports|..], report) == reports + [report]
  {
    assert reports[0..] == reports && reports[|reports|..] == [];
  }

  lemma {:induction false} AddedIds(reports: seq<Report>, report: Report)
    ensures Ids(Added(reports, report)) == Ids(reports) + {report.id}
    ensures report in Added(reports, report)
    ensures forall r :: r in reports && r.id != report.id ==> r in Added(reports, report)
    ensures forall r :: r in Added(reports, report) ==> r == report || r in reports
  {
    if reports != [] {
      assert reports == [reports[0]] + reports[1..];
      if reports[0].id != report.id {
        AddedIds(reports[1..], report);
      }
    }
  }

  lemma {:induction false} AddedDistinct(reports: seq<Report>, report: Report)
    requires DistinctIds(reports)
    ensures DistinctIds(Added(reports, report))
  {
    if reports != [] && reports[0].id != report.id {
      var rest := Added(reports[1..], report);
      AddedDistinct(reports[1..], report);
      AddedIds(reports[1..], report);
      forall r | r in rest ensures r.id != reports[0].id {
        if r != report {
          var j :| 0 <= j < |reports[1..]| && reports[1..][j] == r;
          assert reports[j + 1] == r;
        }
      }
      forall i, j | 0 <= i < j < |rest| + 1 ensures ([reports[0]] + rest)[i].id != ([reports[0]] + rest)[j].id {
        if i == 0 {
          assert rest[j - 1] in rest;
        } else {
          assert rest[i - 1].id != rest[j - 1].id;
        }
      }
    }
  }

  /** Restoring yields exactly the union of the ids; the taken reports are all kept, and win over newer ones. */
  lemma {:induction false} MergedIds(taken: seq<Report>, current: seq<Report>)
    ensures Ids(Merged(taken, current)) == Ids(taken) + Ids(current)
    ensures taken <= Merged(taken, current)
    ensures forall r :: r in Merged(taken, current) <==> r in taken || (r in current && r.id !in Ids(taken))
    decreases |current|
  {
    if current != [] {
      var front, last := current[..|current| - 1], current[|current| - 1];
      assert current == front + [last];
      MergedIds(taken, front);
    }
  }

  lemma {:induction false} MergedDistinct(taken: seq<Report>, current: seq<Report>)
    requires DistinctIds(taken) && DistinctIds(current)
    ensures DistinctIds(Merged(taken, current))
    decreases |current|
  {
    if current != [] {
      var front, last := current[..|current| - 1], current[|current| - 1];
      MergedDistinct(taken, front);
      MergedIds(taken, front);
      forall r | r in front ensures r.id != last.id {
        var j :| 0 <= j < |front| && front[j] == r;
        assert current[j].id != current[|current| - 1].id;
      }
    }
  }

  /** The newest report does not win: a report re-sent while its batch was out is replaced by the older one. */
  lemma OlderReportWins(older: Report, newer: Report)
    requires older.id == newer.id
    ensures Merged([older], [newer]) == [older]
  {
    assert ContainsReport([older], newer.id) by { assert [older][0].id == newer.id; }
    assert [newer][..0] == [];
  }

  class WakeBatch {
    const tenant: string
    const user: string
    var reports: seq<Report>

    constructor (tenant: string, user: string)
      ensures this.tenant == tenant && this.user == user && reports == []
    {
      this.tenant, this.user, reports := tenant, user, [];
    }

    /** The scan for a report with the same id. */
    method Put(report: Report)
      modifies this
      ensures reports == Added(old(reports), report)
    {
      hide Added;
      AddedNil(reports, report);
      for i := 0 to |reports|
        invariant reports == old(reports)
        invariant Added(reports, report) == reports[..i] + Added(reports[i..], report)
      {
        AddedAt(reports, i, report);
        if reports[i].id == report.id {
          reports := reports[i := report];
          return;
        }
      }
      reports := reports + [report];
    }
  }

  class Queue {
    var pending: map<string, WakeBatch>

    /** No two conversations share a batch object. */
    ghost predicate Valid()
      reads this
    {
      forall c, d :: c in pending && d in pending && pending[c] == pending[d] ==> c == d
    }

    ghost function Contents(): map<string, seq<Report>>
      reads this, pending.Values
    {
      map c | c in pending :: pending[c].reports
    }

    constructor ()
      ensures Valid() && Contents() == map[]
    {
      pending := map[];
    }

    method Add(conversation: string, tenant: string, user: string, report: Report)
      requires Valid()
      modifies this, pending.Values
      ensures Valid()
      ensures
        var before := if conversation in old(Contents()) then old(Contents())[conversation] else [];
        Contents() == old(Contents())[conversation := Added(before, report)]
    {
      if conversation !in pending {
        var created := new WakeBatch(tenant, user);
        pending := pending[conversation := created];
      }
      hide Added;
      pending[conversation].Put(report);
    }

    method Take(conversation: string) returns (batch: WakeBatch?)
      requires Valid()
      modifies this
      ensures Valid() && Contents() == old(Contents()) - {conversation}
      ensures batch == null <==> conversation !in old(Contents()) || old(Contents())[conversation] == []
      ensures batch != null ==> batch.reports == old(Contents())[conversation] && batch !in pending.Values
    {
      batch := if conversation in pending then pending[conversation] else null;
      pending := pending - {conversation};
      if batch == null || |batch.reports| == 0 {
        return null;
      }
    }

    method Restore(conversation: string, batch: WakeBatch?)
      requires Valid() && (batch != null ==> batch !in pending.Values)
      modifies this, pending.Values
      ensures Valid()
      ensures batch == null || old(batch.reports) == [] ==> Contents() == old(Contents())
      ensures batch != null && old(batch.reports) != [] ==>
        Contents() == old(Contents())[conversation :=
          if conversation in old(Contents()) then Merged(batch.reports, old(Contents())[conversation])
          else batch.reports]
    {
      if batch == null || |batch.reports| == 0 {
        return;
      }
      if conversation !in pending {
        pending := pending[conversation := batch];
        return;
      }
      var current := pending[conversation];
      var merged := batch.reports;
      for i := 0 to |current.reports|
        invariant merged == Merged(batch.reports, current.reports[..i])
      {
        assert current.reports[..i + 1][..i] == current.reports[..i];
        if !ContainsReport(batch.reports, current.reports[i].id) {
          merged := merged + [current.reports[i]];
        }
      }
      assert current.reports[..|current.reports|] == current.reports;
      current.reports := merged;
    }

    method Drop(conversation: string)
      requires Valid()
      modifies this
      ensures Valid() && Contents() == old(Contents()) - {conversation}
    {
      pending := pending - {conversation};
    }
  }
}
