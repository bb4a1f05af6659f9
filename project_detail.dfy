/**
 * The project page: it loads one project record, picks the step to show from
 * the project's status, lets the user rename the project and hosts the upload
 * step, whose `onNext` callback starts processing. Its `useState` hooks
 * (`project`, `isEditing`, `projectName`, `currentStep`) are the fields of
 * `ProjectPage`; the database calls are inputs to the methods.
 */
module ProjectDetail {
  import opened Wrappers
  import Text
  import Status
  import UploadStep

  /** The record read from the `projects` table. */
  datatype Project = Project(
    id: string,
    name: string,
    status: string,
    createdAt: string,
    csvFileUrl: Option<string>,
    video1Url: Option<string>,
    video2Url: Option<string>)

  /** `currentStep`: which panel the page shows. */
  datatype Step = Upload | Processing | Results

  /**
   * The step `fetchProject` selects for a loaded status: the three lifecycle
   * statuses draft, processing and completed pick their panel; every other
   * status, "error" included, keeps the current step.
   */
  function StepAfterLoad(current: Step, status: string): (next: Step)
    ensures status == Status.Draft ==> next == Upload
    ensures status == Status.Processing ==> next == Processing
    ensures status == Status.Completed ==> next == Results
    ensures next != current ==> status in {Status.Draft, Status.Processing, Status.Completed}
  {
    if status == Status.Draft then Upload
    else if status == Status.Processing then Processing
    else if status == Status.Completed then Results
    else current
  }

  /** The status each step stands for; together with `StepAfterLoad`, a bijection. */
  function StatusOfStep(step: Step): string
  {
    match step
    case Upload => Status.Draft
    case Processing => Status.Processing
    case Results => Status.Completed
  }

  /** Loading a status that a step stands for selects that step, whatever was shown before. */
  lemma StepOfStatusOfStep(current: Step, step: Step)
    ensures StepAfterLoad(current, StatusOfStep(step)) == step
  {
  }

  /** A step that loading changed is the one step standing for the loaded status. */
  lemma StatusOfSelectedStep(current: Step, status: string)
    requires StepAfterLoad(current, status) != current
    ensures StatusOfStep(StepAfterLoad(current, status)) == status
  {
  }

  /** Loading the same status twice selects what loading it once did. */
  lemma StepAfterLoadIdempotent(current: Step, status: string)
    ensures StepAfterLoad(StepAfterLoad(current, status), status) == StepAfterLoad(current, status)
  {
  }

  const DefaultColor: string := "bg-gray-100 text-gray-800"

  /** `getStatusColor`: a badge class for completed, processing and error; the grey default for everything else. */
  function StatusColor(status: string): (color: string)
    ensures color != DefaultColor <==> status in {Status.Completed, Status.Processing, Status.Error}
  {
    if status == Status.Completed then "bg-green-100 text-green-800"
    else if status == Status.Processing then "bg-blue-100 text-blue-800"
    else if status == Status.Error then "bg-red-100 text-red-800"
    else DefaultColor
  }

  /** The three coloured statuses get three different classes. */
  lemma StatusColorsDistinct()
    ensures StatusColor(Status.Completed) != StatusColor(Status.Processing)
    ensures StatusColor(Status.Completed) != StatusColor(Status.Error)
    ensures StatusColor(Status.Processing) != StatusColor(Status.Error)
    ensures StatusColor(Status.Draft) == DefaultColor
  {
  }

  /** `getStatusText`: a French label for the four known statuses; any other status is shown as it is. */
  function StatusText(status: string): (text: string)
    ensures text != status <==> Status.IsKnown(status)
  {
    if status == Status.Draft then "Brouillon"
    else if status == Status.Processing then "En cours"
    else if status == Status.Completed then "Terminé"
    else if status == Status.Error then "Erreur"
    else status
  }

  /** Different known statuses get different labels. */
  lemma StatusTextInjective(a: string, b: string)
    requires Status.IsKnown(a) && Status.IsKnown(b) && a != b
    ensures StatusText(a) != StatusText(b)
  {
  }

  class ProjectPage {
    var project: Option<Project>
    var isEditing: bool
    var projectName: string
    var currentStep: Step

    /** The component's initial state (before `fetchProject` has answered). */
    constructor ()
      ensures project == None && !isEditing && projectName == "" && currentStep == Upload
    {
      project := None;
      isEditing := false;
      projectName := "";
      currentStep := Upload;
    }

    /**
     * `fetchProject`, with the query's answer as an input. A record sets the
     * project, the edit buffer and the step; no record (the query failed)
     * changes nothing here and sends the user back to the dashboard.
     */
    method FetchProject(fetched: Option<Project>) returns (toDashboard: bool)
      modifies this`project, this`projectName, this`currentStep
      ensures toDashboard <==> fetched.None?
      ensures fetched.None? ==>
        project == old(project) && projectName == old(projectName) && currentStep == old(currentStep)
      ensures fetched.Some? ==>
        && project == fetched
        && projectName == fetched.value.name
        && currentStep == StepAfterLoad(old(currentStep), fetched.value.status)
      ensures isEditing == old(isEditing)
    {
      if fetched.None? {
        return true;
      }
      var data := fetched.value;
      project := Some(data);
      projectName := data.name;
      if data.status == Status.Draft {
        currentStep := Upload;
      } else if data.status == Status.Processing {
        currentStep := Processing;
      } else if data.status == Status.Completed {
        currentStep := Results;
      }
      toDashboard := false;
    }

    /** `handleStartProcessing`: only the shown step changes; the project's status is not written. */
    method StartProcessing()
      modifies this`currentStep
      ensures currentStep == Processing
      ensures project == old(project) && projectName == old(projectName) && isEditing == old(isEditing)
    {
      currentStep := Processing;
    }

    /** The settings button: `setIsEditing(true)`. */
    method StartEditing()
      modifies this`isEditing
      ensures isEditing
      ensures project == old(project) && projectName == old(projectName) && currentStep == old(currentStep)
    {
      isEditing := true;
    }

    /** The name input's `onChange`: the edit buffer takes the typed text as it is. */
    method EditName(value: string)
      modifies this`projectName
      ensures projectName == value
      ensures project == old(project) && isEditing == old(isEditing) && currentStep == old(currentStep)
    {
      projectName := value;
    }

    /**
     * `updateProjectName`, with the database's answer as an input. Nothing is
     * attempted without a project or with a name that trims to "". After a
     * successful write the project's name becomes the trimmed buffer, every
     * other project field is kept and editing ends; the buffer itself stays
     * untrimmed. A failed write changes nothing.
     */
    method UpdateProjectName(writeSucceeded: bool) returns (attempted: bool)
      modifies this`project, this`isEditing
      ensures attempted <==> old(project).Some? && Text.Trim(old(projectName)) != ""
      ensures attempted && writeSucceeded ==>
        && project == Some(old(project).value.(name := Text.Trim(old(projectName))))
        && !isEditing
      ensures !(attempted && writeSucceeded) ==> project == old(project) && isEditing == old(isEditing)
      ensures projectName == old(projectName) && currentStep == old(currentStep)
    {
      var trimmed := Text.Trim(projectName);
      if project.None? || trimmed == "" {
        return false;
      }
      attempted := true;
      if writeSucceeded {
        project := Some(project.value.(name := trimmed));
        isEditing := false;
      }
    }

    /** The cancel button: the edit buffer goes back to the project's name and editing ends. */
    method CancelEdit()
      requires project.Some?
      modifies this`projectName, this`isEditing
      ensures projectName == project.value.name && !isEditing
      ensures project == old(project) && currentStep == old(currentStep)
    {
      projectName := project.value.name;
      isEditing := false;
    }

    /**
     * The upload step's "next" button, wired to `handleStartProcessing` as
     * its `onNext`: the page moves to processing exactly when the session
     * can proceed.
     */
    method SubmitUpload(session: UploadStep.UploadSession)
      modifies this`currentStep
      ensures currentStep ==
        if UploadStep.CanProceed(session.csvData, session.video1, session.columnMapping)
        then Processing else old(currentStep)
      ensures project == old(project) && projectName == old(projectName) && isEditing == old(isEditing)
    {
      var go := session.HandleNext();
      if go {
        StartProcessing();
      }
    }
  }
}
