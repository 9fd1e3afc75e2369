/**
 The persisted entities, as flat records with explicit foreign-key fields
 (DotNetCoreWebApi.Models/Models.cs). Navigation properties are replaced by
 the ids they follow; the measurement records of a worksheet take no part in
 the modelled operations.
 */
module Models {
  import opened Optional

  /** The closed set of user roles. */
  datatype UserType = Admin | Technician | Analyst

  datatype User = User(id: int, userName: string, email: Option<string>, userType: UserType)

  /** A laboratory process type; `createdBy` is the creating user's id. */
  datatype DnaProcess = DnaProcess(id: int, name: string, createdBy: int)

  datatype Workflow = Workflow(id: int, name: string, createdBy: int)

  /** The characters .NET's `char.IsWhiteSpace` accepts (the Unicode White_Space property). */
  predicate IsWhiteSpace(c: char)
  {
    c in {'\t', '\n', '\U{000B}', '\U{000C}', '\r', ' ', '\U{0085}', '\U{00A0}', '\U{1680}',
          '\U{2000}', '\U{2001}', '\U{2002}', '\U{2003}', '\U{2004}', '\U{2005}',
          '\U{2006}', '\U{2007}', '\U{2008}', '\U{2009}', '\U{200A}',
          '\U{2028}', '\U{2029}', '\U{202F}', '\U{205F}', '\U{3000}'}
  }

  /**
   `[Required, MaxLength(255)]` on a name: `Required` refuses a string that is
   empty or all white space, `MaxLength` one longer than 255 characters.
   */
  predicate NameValid(name: string)
  {
    && |name| <= 255
    && exists i :: 0 <= i < |name| && !IsWhiteSpace(name[i])
  }

  /** One step of a workflow: the process `dnaProcessId` at position `processOrder`. */
  datatype WorkflowProcess = WorkflowProcess(id: int, workflowId: int, dnaProcessId: int, processOrder: int)

  /** A group of worksheets that together run one workflow. */
  datatype WorkflowGroup = WorkflowGroup(id: int, workflowId: int)

  /** One run of a single process, owned by the analyst `analystId`. */
  datatype Worksheet = Worksheet(id: int, name: string, analystId: int, dnaProcessId: int)

  /** A worksheet placed at step `stepOrder` of a workflow group. */
  datatype WorksheetWorkflowGroup = WorksheetWorkflowGroup(id: int, worksheetId: int, workflowGroupId: int, stepOrder: int)
}
