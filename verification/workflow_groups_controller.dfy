/**
 The group report (DotNetCoreWebApi/Controllers/WorkflowGroupsController.cs):
 a read-only query that takes the worksheet placements of one workflow group,
 orders them by step, and projects five fields joined from the group's
 workflow, the worksheet, its process and its analyst. Being a function of
 the tables, it changes none of them.
 */
module WorkflowGroupsController {
  import opened Models
  import opened ActionResults
  import opened Sequences

  /** The tables the report reads. */
  datatype Database = Database(
    users: map<int, User>,
    dnaProcesses: map<int, DnaProcess>,
    workflows: map<int, Workflow>,
    workflowGroups: map<int, WorkflowGroup>,
    worksheets: map<int, Worksheet>,
    placements: seq<WorksheetWorkflowGroup>)

  /** One line of the report. */
  datatype ReportRow = ReportRow(
    workflowName: string,
    stepOrder: int,
    processName: string,
    worksheetName: string,
    analystName: string)

  /** Every row the projection follows from `p` exists. */
  predicate Resolves(db: Database, p: WorksheetWorkflowGroup)
  {
    && p.worksheetId in db.worksheets
    && p.workflowGroupId in db.workflowGroups
    && db.worksheets[p.worksheetId].analystId in db.users
    && db.worksheets[p.worksheetId].dnaProcessId in db.dnaProcesses
    && db.workflowGroups[p.workflowGroupId].workflowId in db.workflows
  }

  /** The foreign keys of the placement, worksheet and group tables hold. */
  predicate ForeignKeysHold(db: Database)
  {
    forall p :: p in db.placements ==> Resolves(db, p)
  }

  /** The five fields the report shows for placement `p`. */
  function RowOf(db: Database, p: WorksheetWorkflowGroup): (row: ReportRow)
    requires Resolves(db, p)
    ensures row.stepOrder == p.stepOrder
  {
    var ws := db.worksheets[p.worksheetId];
    ReportRow(
      db.workflows[db.workflowGroups[p.workflowGroupId].workflowId].name,
      p.stepOrder,
      db.dnaProcesses[ws.dnaProcessId].name,
      ws.name,
      db.users[ws.analystId].userName)
  }

  function StepOrder(p: WorksheetWorkflowGroup): int
  {
    p.stepOrder
  }

  /** The test `wwg.WorkflowGroupId == id`. */
  function InGroup(id: int): WorksheetWorkflowGroup -> bool
  {
    (p: WorksheetWorkflowGroup) => p.workflowGroupId == id
  }

  /** The placements of group `id`, in table order. */
  function GroupPlacements(db: Database, id: int): (r: seq<WorksheetWorkflowGroup>)
    ensures forall p :: p in r <==> p in db.placements && p.workflowGroupId == id
    ensures forall p :: multiset(r)[p] == if p.workflowGroupId == id then multiset(db.placements)[p] else 0
    ensures Subsequence(r, db.placements)
  {
    FilterIsSubsequence(db.placements, InGroup(id));
    Filter(db.placements, InGroup(id))
  }

  /** The placements the report lists, in report order. */
  function ReportSource(db: Database, id: int): (r: seq<WorksheetWorkflowGroup>)
    ensures |r| == |GroupPlacements(db, id)|
    ensures multiset(r) == multiset(GroupPlacements(db, id))
    ensures SortedBy(r, StepOrder)
    ensures forall p :: p in r <==> p in db.placements && p.workflowGroupId == id
  {
    SortBy(GroupPlacements(db, id), StepOrder)
  }

  /** The report lines of `ps`, one per placement, in the same order. */
  function Project(db: Database, ps: seq<WorksheetWorkflowGroup>): (rows: seq<ReportRow>)
    requires forall p :: p in ps ==> Resolves(db, p)
    ensures |rows| == |ps|
    ensures forall i :: 0 <= i < |ps| ==> rows[i] == RowOf(db, ps[i])
  {
    if ps == [] then [] else [RowOf(db, ps[0])] + Project(db, ps[1..])
  }

  /** Projecting placements in step order gives lines in step order. */
  lemma ProjectKeepsStepOrder(db: Database, ps: seq<WorksheetWorkflowGroup>)
    requires forall p :: p in ps ==> Resolves(db, p)
    requires SortedBy(ps, StepOrder)
    ensures forall i, j :: 0 <= i < j < |ps| ==> Project(db, ps)[i].stepOrder <= Project(db, ps)[j].stepOrder
  {
    var rows := Project(db, ps);
    forall i, j | 0 <= i < j < |ps| ensures rows[i].stepOrder <= rows[j].stepOrder {
      assert StepOrder(ps[i]) <= StepOrder(ps[j]);
    }
  }

  /**
   `GetGroupReport`: NotFound exactly when no placement belongs to group
   `id`; otherwise one line per placement of the group, each built from a
   placement of that group, ordered by non-decreasing step.
   */
  function GetGroupReport(db: Database, id: int): (r: ActionResult<seq<ReportRow>>)
    requires ForeignKeysHold(db)
    ensures r.NotFound? || r.Ok?
    ensures r.NotFound? <==> forall p :: p in db.placements ==> p.workflowGroupId != id
    ensures r.Ok? ==> |r.value| == |GroupPlacements(db, id)|
    ensures r.Ok? ==> forall i, j :: 0 <= i < j < |r.value| ==> r.value[i].stepOrder <= r.value[j].stepOrder
    ensures r.Ok? ==> forall i :: 0 <= i < |r.value| ==> FromGroup(db, id, r.value[i])
    ensures r.Ok? ==> exists src :: OrderedPlacements(db, id, src) && r.value == Project(db, src)
  {
    var report := Project(db, ReportSource(db, id));
    GroupReportLines(db, id);
    ReportSourceOrdered(db, id);
    if report == [] then NotFound else Ok(report)
  }

  /**
   `src` lists the placements of group `id`, each as often as it is stored,
   in non-decreasing StepOrder, with placements of equal step in table order.
   */
  ghost predicate OrderedPlacements(db: Database, id: int, src: seq<WorksheetWorkflowGroup>)
  {
    && multiset(src) == multiset(GroupPlacements(db, id))
    && SortedBy(src, StepOrder)
    && (forall k :: Filter(src, HasKey(StepOrder, k)) == Filter(GroupPlacements(db, id), HasKey(StepOrder, k)))
    && (forall p :: p in src ==> Resolves(db, p))
  }

  lemma ReportSourceOrdered(db: Database, id: int)
    requires ForeignKeysHold(db)
    ensures OrderedPlacements(db, id, ReportSource(db, id))
  {
    SortByStableAll(GroupPlacements(db, id), StepOrder);
  }

  /** `row` is the line of some placement of group `id`. */
  ghost predicate FromGroup(db: Database, id: int, row: ReportRow)
    requires ForeignKeysHold(db)
  {
    exists p :: p in db.placements && p.workflowGroupId == id && row == RowOf(db, p)
  }

  lemma GroupReportLines(db: Database, id: int)
    requires ForeignKeysHold(db)
    ensures var rows := Project(db, ReportSource(db, id));
      && |rows| == |GroupPlacements(db, id)|
      && (rows == [] <==> forall p :: p in db.placements ==> p.workflowGroupId != id)
      && (forall i, j :: 0 <= i < j < |rows| ==> rows[i].stepOrder <= rows[j].stepOrder)
      && (forall i :: 0 <= i < |rows| ==> FromGroup(db, id, rows[i]))
  {
    var source := ReportSource(db, id);
    var rows := Project(db, source);
    ProjectKeepsStepOrder(db, source);
    forall i | 0 <= i < |rows| ensures FromGroup(db, id, rows[i]) {
      assert source[i] in source;
    }
    if exists p :: p in db.placements && p.workflowGroupId == id {
      var p :| p in db.placements && p.workflowGroupId == id;
      assert p in source;
    }
    if rows != [] {
      assert source[0] in source;
    }
  }

  /**
   Each placement of the group yields exactly one report line: the lines are
   the placements of the group, each taken once, reordered by step, with
   ties kept in table order.
   */
  lemma {:induction false} ReportListsEachPlacementOnce(db: Database, id: int, k: int)
    requires ForeignKeysHold(db)
    requires GetGroupReport(db, id).Ok?
    ensures GetGroupReport(db, id).value == Project(db, ReportSource(db, id))
    ensures multiset(ReportSource(db, id)) == multiset(GroupPlacements(db, id))
    ensures Filter(ReportSource(db, id), HasKey(StepOrder, k)) == Filter(GroupPlacements(db, id), HasKey(StepOrder, k))
  {
    SortByStable(GroupPlacements(db, id), StepOrder, k);
  }

  /** Sorting placements with steps 3, 1, 2 puts them in steps 1, 2, 3. */
  lemma SortStepsThreeOneTwo(ps: seq<WorksheetWorkflowGroup>)
    requires |ps| == 3
    requires ps[0].stepOrder == 3 && ps[1].stepOrder == 1 && ps[2].stepOrder == 2
    ensures SortBy(ps, StepOrder) == [ps[1], ps[2], ps[0]]
  {
    var tail := ps[1..];
    assert SortedBy(tail, StepOrder) by {
      assert tail[0].stepOrder == 1 && tail[1].stepOrder == 2;
    }
    SortBySorted(tail, StepOrder);
    assert SortBy(ps, StepOrder) == InsertByKey(ps[0], tail, StepOrder);
    assert tail[1..] == [ps[2]] && [ps[2]][1..] == [];
    assert InsertByKey(ps[0], [ps[2]], StepOrder) == [ps[2]] + InsertByKey(ps[0], [], StepOrder);
    assert InsertByKey(ps[0], tail, StepOrder) == [ps[1]] + InsertByKey(ps[0], [ps[2]], StepOrder);
  }

  lemma ProjectThree(db: Database, a: WorksheetWorkflowGroup, b: WorksheetWorkflowGroup, c: WorksheetWorkflowGroup)
    requires Resolves(db, a) && Resolves(db, b) && Resolves(db, c)
    ensures Project(db, [a, b, c]) == [RowOf(db, a), RowOf(db, b), RowOf(db, c)]
  {
    assert [a, b, c][1..] == [b, c] && [b, c][1..] == [c] && [c][1..] == [];
  }

  /** Placements stored with steps 3, 1, 2 in one group are reported in steps 1, 2, 3. */
  lemma ReportOrdersBySteps(db: Database)
    requires ForeignKeysHold(db)
    requires |db.placements| == 3
    requires forall i :: 0 <= i < 3 ==> db.placements[i].workflowGroupId == 1
    requires db.placements[0].stepOrder == 3 && db.placements[1].stepOrder == 1 && db.placements[2].stepOrder == 2
    ensures GetGroupReport(db, 1).Ok?
    ensures GetGroupReport(db, 1).value == [RowOf(db, db.placements[1]), RowOf(db, db.placements[2]), RowOf(db, db.placements[0])]
  {
    var ps := db.placements;
    FilterKeepsAll(ps, InGroup(1));
    SortStepsThreeOneTwo(ps);
    assert ReportSource(db, 1) == [ps[1], ps[2], ps[0]];
    assert ps[0] in ps && ps[1] in ps && ps[2] in ps;
    ProjectThree(db, ps[1], ps[2], ps[0]);
  }
}
