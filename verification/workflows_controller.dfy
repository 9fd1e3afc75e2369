/**
 The workflow endpoints (DotNetCoreWebApi/Controllers/WorkflowsController.cs)
 over an in-memory store of the two tables they touch: the workflows, keyed
 by id, and the workflow/process link rows in insertion order. Identity
 columns are modelled by the next value each will hand out.
 */
module WorkflowsController {
  import opened Models
  import opened ActionResults
  import opened Sequences

  /** A workflow with its process links, as `GetWorkflow` returns it. */
  datatype WorkflowView = WorkflowView(workflow: Workflow, processes: seq<WorkflowProcess>)

  /** The message of the duplicate-link rejection. */
  const DuplicateProcess: string := "Process already in workflow"

  /**
   The title of the automatic 400 that `[ApiController]` answers, before the
   action runs, when the body fails its validation attributes.
   */
  const ValidationFailed: string := "One or more validation errors occurred."

  /** Some row links workflow `workflowId` to process `dnaProcessId`. */
  predicate LinkExists(links: seq<WorkflowProcess>, workflowId: int, dnaProcessId: int)
  {
    exists i :: 0 <= i < |links| && links[i].workflowId == workflowId && links[i].dnaProcessId == dnaProcessId
  }

  /** The unique index on (WorkflowId, DnaProcessId): no pair occurs in two rows. */
  predicate UniquePairs(links: seq<WorkflowProcess>)
  {
    forall i, j :: 0 <= i < j < |links| ==>
      links[i].workflowId != links[j].workflowId || links[i].dnaProcessId != links[j].dnaProcessId
  }

  /** Appending a row whose pair is new keeps the pairs unique. */
  lemma AppendKeepsUniquePairs(links: seq<WorkflowProcess>, row: WorkflowProcess)
    requires UniquePairs(links)
    requires !LinkExists(links, row.workflowId, row.dnaProcessId)
    ensures UniquePairs(links + [row])
  {
    var r := links + [row];
    forall i, j | 0 <= i < j < |r|
      ensures r[i].workflowId != r[j].workflowId || r[i].dnaProcessId != r[j].dnaProcessId
    {
      if j == |links| {
        assert r[i] == links[i];
      }
    }
  }

  function ProcessOrder(l: WorkflowProcess): int
  {
    l.processOrder
  }

  /** The test `wp.WorkflowId == id`. */
  function OfWorkflow(id: int): WorkflowProcess -> bool
  {
    (l: WorkflowProcess) => l.workflowId == id
  }

  /** The rows of workflow `id`, in table order. */
  function LinksOf(links: seq<WorkflowProcess>, id: int): (r: seq<WorkflowProcess>)
    ensures forall l :: l in r <==> l in links && l.workflowId == id
    ensures forall l :: multiset(r)[l] == if l.workflowId == id then multiset(links)[l] else 0
    ensures Subsequence(r, links)
  {
    FilterIsSubsequence(links, OfWorkflow(id));
    Filter(links, OfWorkflow(id))
  }

  class WorkflowStore {
    /** The Workflows table, keyed by Id. */
    var workflows: map<int, Workflow>
    /** The WorkflowProcesses table, in insertion order. */
    var links: seq<WorkflowProcess>
    /** The next value of the Workflows identity column. */
    var nextWorkflowId: int
    /** The next value of the WorkflowProcesses identity column. */
    var nextLinkId: int

    /**
     Each workflow is stored under its own id; identities start at 1 and
     every id handed out is below the next one; link rows are in increasing
     id order; no (workflow, process) pair occurs twice.
     */
    ghost predicate Valid()
      reads this
    {
      && 1 <= nextWorkflowId
      && 1 <= nextLinkId
      && (forall k :: k in workflows ==> workflows[k].id == k && 1 <= k < nextWorkflowId)
      && (forall i :: 0 <= i < |links| ==> 1 <= links[i].id < nextLinkId)
      && (forall i, j :: 0 <= i < j < |links| ==> links[i].id < links[j].id)
      && UniquePairs(links)
    }

    /** An empty database; both identity columns seeded at 1. */
    constructor ()
      ensures Valid()
      ensures workflows == map[] && links == []
    {
      workflows := map[];
      links := [];
      nextWorkflowId := 1;
      nextLinkId := 1;
    }

    /**
     `GetWorkflow`: NotFound exactly when no workflow has the id; otherwise
     that workflow with exactly its link rows, ordered by ProcessOrder.
     */
    function GetWorkflow(id: int): (r: ActionResult<WorkflowView>)
      reads this
      ensures r.NotFound? || r.Ok?
      ensures r.NotFound? <==> id !in workflows
      ensures r.Ok? ==> r.value.workflow == workflows[id]
      ensures r.Ok? ==> SortedBy(r.value.processes, ProcessOrder)
      ensures r.Ok? ==> multiset(r.value.processes) == multiset(LinksOf(links, id))
      ensures r.Ok? ==> forall l :: l in r.value.processes <==> l in links && l.workflowId == id
    {
      if id !in workflows then NotFound
      else Ok(WorkflowView(workflows[id], SortBy(LinksOf(links, id), ProcessOrder)))
    }

    /**
     `PostWorkflow`: a body whose name fails `[Required, MaxLength(255)]` is
     refused with the automatic 400 and nothing changes; otherwise the
     workflow is stored under a freshly assigned id that no existing workflow
     has, and returned as created. The link rows do not change.
     */
    method PostWorkflow(workflow: Workflow) returns (r: ActionResult<Workflow>)
      requires Valid()
      modifies this
      ensures Valid()
      ensures links == old(links) && nextLinkId == old(nextLinkId)
      ensures !NameValid(workflow.name) ==>
        r == BadRequest(ValidationFailed) && workflows == old(workflows) && nextWorkflowId == old(nextWorkflowId)
      ensures NameValid(workflow.name) ==>
        && r.Created?
        && r.value.id !in old(workflows)
        && r.value == workflow.(id := r.value.id)
        && workflows == old(workflows)[r.value.id := r.value]
    {
      if !NameValid(workflow.name) {
        return BadRequest(ValidationFailed);
      }
      var created := workflow.(id := nextWorkflowId);
      workflows := workflows[created.id := created];
      nextWorkflowId := nextWorkflowId + 1;
      r := Created(created);
    }

    /**
     `AddProcessToWorkflow`: NotFound when the workflow is absent;
     BadRequest when the workflow already links that process; otherwise
     exactly one row is appended and every existing row, with its
     ProcessOrder, stays as it was. Only the success path changes anything.
     */
    method AddProcessToWorkflow(id: int, dnaProcessId: int, processOrder: int) returns (r: ActionResult<()>)
      requires Valid()
      modifies this
      ensures Valid()
      ensures workflows == old(workflows) && nextWorkflowId == old(nextWorkflowId)
      ensures id !in old(workflows) ==> r == NotFound && links == old(links) && nextLinkId == old(nextLinkId)
      ensures id in old(workflows) && old(LinkExists(links, id, dnaProcessId)) ==>
        r == BadRequest(DuplicateProcess) && links == old(links) && nextLinkId == old(nextLinkId)
      ensures id in old(workflows) && !old(LinkExists(links, id, dnaProcessId)) ==>
        && r == NoContent
        && links == old(links) + [WorkflowProcess(old(nextLinkId), id, dnaProcessId, processOrder)]
        && nextLinkId == old(nextLinkId) + 1
    {
      if id !in workflows {
        return NotFound;
      }
      if LinkExists(links, id, dnaProcessId) {
        return BadRequest(DuplicateProcess);
      }
      var processLink := WorkflowProcess(nextLinkId, id, dnaProcessId, processOrder);
      AppendKeepsUniquePairs(links, processLink);
      links := links + [processLink];
      nextLinkId := nextLinkId + 1;
      r := NoContent;
    }

    /**
     `PutWorkflow`: the automatic 400 and no change when the body's name fails
     `[Required, MaxLength(255)]`; otherwise BadRequest and no change when the
     path id differs from the body's; NotFound and no change when no workflow
     has the id; otherwise the stored workflow is replaced by the body.
     */
    method PutWorkflow(id: int, workflow: Workflow) returns (r: ActionResult<()>)
      requires Valid()
      modifies this
      ensures Valid()
      ensures links == old(links) && nextLinkId == old(nextLinkId) && nextWorkflowId == old(nextWorkflowId)
      ensures !NameValid(workflow.name) ==> r == BadRequest(ValidationFailed) && workflows == old(workflows)
      ensures NameValid(workflow.name) && id != workflow.id ==> r == BadRequest("") && workflows == old(workflows)
      ensures NameValid(workflow.name) && id == workflow.id && id !in old(workflows) ==>
        r == NotFound && workflows == old(workflows)
      ensures NameValid(workflow.name) && id == workflow.id && id in old(workflows) ==>
        r == NoContent && workflows == old(workflows)[id := workflow]
    {
      if !NameValid(workflow.name) {
        return BadRequest(ValidationFailed);
      }
      if id != workflow.id {
        return BadRequest("");
      }
      if id !in workflows {
        // Saving the modified entity touches no row; the concurrency
        // handler then finds no such workflow.
        return NotFound;
      }
      workflows := workflows[id := workflow];
      r := NoContent;
    }

    /**
     `DeleteWorkflow`: NotFound and no change when no workflow has the id;
     otherwise exactly that workflow is removed.
     */
    method DeleteWorkflow(id: int) returns (r: ActionResult<()>)
      requires Valid()
      modifies this
      ensures Valid()
      ensures links == old(links) && nextLinkId == old(nextLinkId) && nextWorkflowId == old(nextWorkflowId)
      ensures id !in old(workflows) ==> r == NotFound && workflows == old(workflows)
      ensures id in old(workflows) ==> r == NoContent && workflows == old(workflows) - {id}
    {
      if id !in workflows {
        return NotFound;
      }
      workflows := workflows - {id};
      r := NoContent;
    }
  }

  /**
   Adding the same process to a workflow twice: the first add appends one
   row, the second is rejected as a duplicate and appends nothing.
   */
  method AddTwice(store: WorkflowStore, id: int, dnaProcessId: int, processOrder: int, laterOrder: int)
    returns (first: ActionResult<()>, second: ActionResult<()>)
    requires store.Valid() && id in store.workflows && !LinkExists(store.links, id, dnaProcessId)
    modifies store
    ensures store.Valid()
    ensures first == NoContent && second == BadRequest(DuplicateProcess)
    ensures store.links == old(store.links) + [WorkflowProcess(old(store.nextLinkId), id, dnaProcessId, processOrder)]
  {
    first := store.AddProcessToWorkflow(id, dnaProcessId, processOrder);
    assert LinkExists(store.links, id, dnaProcessId) by {
      assert store.links[|store.links| - 1].workflowId == id;
    }
    second := store.AddProcessToWorkflow(id, dnaProcessId, laterOrder);
  }
}
