/** The task-update decision for an agent that is not its board's lead, as
    `backend/tests/test_task_agent_permissions.py` pins it down through
    `update_task`: such an agent may change only the status, and only of a
    task assigned to it; every refusal is a 403 whose detail carries a code.
    The endpoint that implements it is not part of this model. */
module TaskPermissions {
  import opened Common
  import opened Models

  /** The fields a `TaskUpdate` can set. */
  datatype TaskField = StatusField | AssigneeField | TitleField | DescriptionField

  /** The fields explicitly set in a `TaskUpdate`; an absent field is None,
      and `assignedAgentId` may be set to null (Some(None)). */
  datatype TaskPatch = TaskPatch(
    status: Option<string>,
    assignedAgentId: Option<Option<Id>>,
    title: Option<string>,
    description: Option<string>)

  function FieldsSet(patch: TaskPatch): (r: set<TaskField>)
    ensures StatusField in r <==> patch.status.Some?
    ensures AssigneeField in r <==> patch.assignedAgentId.Some?
  {
    (if patch.status.Some? then {StatusField} else {})
    + (if patch.assignedAgentId.Some? then {AssigneeField} else {})
    + (if patch.title.Some? then {TitleField} else {})
    + (if patch.description.Some? then {DescriptionField} else {})
  }

  datatype Decision = Approved | Denied(error: HttpError)

  const FieldForbiddenCode: string := "task_update_field_forbidden"
  const AssigneeRequiredCode: string := "task_assignee_required"
  const AssigneeMismatchCode: string := "task_assignee_mismatch"
  const AssigneeMessage: string := "Agents can only change status on tasks assigned to them."

  /** The text that goes with `task_update_field_forbidden`; the tests do
      not fix it, so the model leaves it unknown. */
  const FieldForbiddenMessage: string

  /** The decision for a non-lead agent `actorId` patching `task`: any field
      other than the status is refused first, then a task without an
      assignee, then a task assigned to someone else. */
  function NonLeadDecision(actorId: Id, task: Task, fields: set<TaskField>): (r: Decision)
    ensures r.Denied? ==> r.error.status == Forbidden && r.error.detail.Coded?
  {
    if fields - {StatusField} != {} then
      Denied(HttpError(Forbidden, Coded(FieldForbiddenCode, FieldForbiddenMessage)))
    else if task.assignedAgentId.None? then
      Denied(HttpError(Forbidden, Coded(AssigneeRequiredCode, AssigneeMessage)))
    else if task.assignedAgentId.value != actorId then
      Denied(HttpError(Forbidden, Coded(AssigneeMismatchCode, AssigneeMessage)))
    else
      Approved
  }

  /** Approval holds exactly for a status-only patch by the assignee. */
  lemma ApprovedIffStatusOnlyByAssignee(actorId: Id, task: Task, fields: set<TaskField>)
    ensures NonLeadDecision(actorId, task, fields).Approved? <==>
      fields <= {StatusField} && task.assignedAgentId == Some(actorId)
  {
    if NonLeadDecision(actorId, task, fields).Approved? {
      assert fields - {StatusField} == {};
      forall f | f in fields ensures f == StatusField {
        assert f !in fields - {StatusField};
      }
    }
  }

  /** Which code a denial carries; the two assignee denials share their
      message and differ only in the code. */
  lemma DenialCodes(actorId: Id, task: Task, fields: set<TaskField>)
    ensures var r := NonLeadDecision(actorId, task, fields);
      && (fields - {StatusField} != {} ==> r.Denied? && r.error.detail.code == FieldForbiddenCode)
      && (fields <= {StatusField} && task.assignedAgentId.None? ==>
            r == Denied(HttpError(Forbidden, Coded(AssigneeRequiredCode, AssigneeMessage))))
      && (fields <= {StatusField} && task.assignedAgentId.Some? && task.assignedAgentId.value != actorId ==>
            r == Denied(HttpError(Forbidden, Coded(AssigneeMismatchCode, AssigneeMessage))))
  {
    if fields <= {StatusField} {
      assert fields - {StatusField} == {};
    }
  }

  /** The four tests: the assignee's status-only patch is approved; the same
      patch is refused on an unassigned task and on another agent's task;
      setting the assignee is refused even for the assignee. */
  lemma PermissionTests(actorId: Id, otherId: Id, task: Task, newStatus: string)
    requires otherId != actorId
    ensures NonLeadDecision(actorId, task.(assignedAgentId := Some(actorId)),
                            FieldsSet(TaskPatch(Some(newStatus), None, None, None))) == Approved
    ensures NonLeadDecision(actorId, task.(assignedAgentId := None),
                            FieldsSet(TaskPatch(Some(newStatus), None, None, None)))
            == Denied(HttpError(Forbidden, Coded(AssigneeRequiredCode, AssigneeMessage)))
    ensures NonLeadDecision(actorId, task.(assignedAgentId := Some(otherId)),
                            FieldsSet(TaskPatch(Some(newStatus), None, None, None)))
            == Denied(HttpError(Forbidden, Coded(AssigneeMismatchCode, AssigneeMessage)))
    ensures NonLeadDecision(actorId, task.(assignedAgentId := Some(actorId)),
                            FieldsSet(TaskPatch(None, Some(Some(actorId)), None, None))).error.detail.code
            == FieldForbiddenCode
  {
    var statusOnly := FieldsSet(TaskPatch(Some(newStatus), None, None, None));
    assert statusOnly == {StatusField};
    assert statusOnly - {StatusField} == {};
    var assigneeOnly := FieldsSet(TaskPatch(None, Some(Some(actorId)), None, None));
    assert AssigneeField in assigneeOnly - {StatusField};
  }

  /** The task table `update_task` writes to. */
  class TaskTable {
    var tasks: seq<Task>

    constructor (rows: seq<Task>)
      ensures tasks == rows
    {
      tasks := rows;
    }

    /** `update_task` by a non-lead agent on row `i`: a refused patch leaves
        the table alone; an approved one writes the new status (a patch that
        sets nothing writes nothing). The assignee is never changed. */
    method UpdateTaskAsNonLeadAgent(actorId: Id, i: nat, patch: TaskPatch) returns (r: Result<Task, HttpError>)
      requires i < |tasks|
      modifies this
      ensures NonLeadDecision(actorId, old(tasks)[i], FieldsSet(patch)).Denied? ==>
        tasks == old(tasks) && r == Err(NonLeadDecision(actorId, old(tasks)[i], FieldsSet(patch)).error)
      ensures NonLeadDecision(actorId, old(tasks)[i], FieldsSet(patch)).Approved? ==>
        var updated := if patch.status.Some? then old(tasks)[i].(status := patch.status.value) else old(tasks)[i];
        tasks == old(tasks)[i := updated] && r == Ok(updated)
      ensures r.Ok? ==> r.value.assignedAgentId == Some(actorId) && r.value.id == old(tasks)[i].id
    {
      var task := tasks[i];
      var decision := NonLeadDecision(actorId, task, FieldsSet(patch));
      if decision.Denied? {
        return Err(decision.error);
      }
      ApprovedIffStatusOnlyByAssignee(actorId, task, FieldsSet(patch));
      if patch.status.Some? {
        task := task.(status := patch.status.value);
      }
      tasks := tasks[i := task];
      r := Ok(task);
    }
  }
}
