/** The four-step project wizard of src/components/ProjectWizard.tsx: the
    current step, the id of the created project and the project form, and the
    handlers that move between the steps.

    The `createProject` mutation is outside the model. Submitting the form
    yields the request it is called with, and its outcome arrives later as
    the parameter `created` of `Created` (`None` when it throws). */
module ProjectWizard {
  import opened Wrappers
  import Analysis

  /** A stored project's id; the database never issues an empty one. */
  type ProjectId = s: string | s != "" witness "p"

  /** The step titles, in order. */
  const Steps: seq<string> := ["Project Details", "Data Upload", "Variable Mapping", "Results"]

  /** What the wizard renders below the step titles. `Blank` is a step of 1
      to 3 without a project id, where nothing is rendered. */
  datatype Panel =
    | DetailsForm
    | Upload(projectId: ProjectId)
    | Mapping(projectId: ProjectId)
    | ResultsScreen(projectId: ProjectId)
    | Blank

  /** The step title that belongs to each screen. */
  function Title(p: Panel): string
  {
    match p
    case DetailsForm => "Project Details"
    case Upload(_) => "Data Upload"
    case Mapping(_) => "Variable Mapping"
    case ResultsScreen(_) => "Results"
    case Blank => ""
  }

  /** The `projectData` form: the arguments of `createProject`. */
  datatype ProjectData = ProjectData(name: string, description: string, analysisType: string)

  class Wizard {
    var step: nat
    var projectId: Option<ProjectId>
    var projectData: ProjectData

    /** The step is one of the four, and every step after the first has a
        project to work on. */
    predicate Valid()
      reads this
    {
      step < |Steps| && (step >= 1 ==> projectId.Some?)
    }

    constructor()
      ensures step == 0 && projectId == None
      ensures projectData == ProjectData("", "", Analysis.VanWestendorp)
      ensures Valid()
    {
      step := 0;
      projectId := None;
      projectData := ProjectData("", "", Analysis.VanWestendorp);
    }

    /** The screen for the current step; a step after the first is blank
        without a project id, and gets the stored id otherwise. Under
        `Valid` the wizard is never blank. */
    function Current(): (p: Panel)
      reads this
      ensures Valid() ==> p != Blank
      ensures p == DetailsForm <==> step == 0
      ensures p == Blank <==> (step >= 1 && projectId.None?) || step >= |Steps|
      ensures p != DetailsForm && p != Blank ==> projectId == Some(p.projectId)
    {
      if step == 0 then DetailsForm
      else if projectId.None? then Blank
      else if step == 1 then Upload(projectId.value)
      else if step == 2 then Mapping(projectId.value)
      else if step == 3 then ResultsScreen(projectId.value)
      else Blank
    }

    /** Whether the title of step `i` is highlighted: in a valid state,
        exactly the title of the screen on display. */
    function Highlighted(i: nat): (h: bool)
      reads this
      ensures Valid() ==> (h <==> i < |Steps| && Steps[i] == Title(Current()))
    {
      i == step
    }

    method SetName(name: string)
      modifies this
      ensures projectData == old(projectData).(name := name)
      ensures step == old(step) && projectId == old(projectId)
    {
      projectData := projectData.(name := name);
    }

    method SetDescription(description: string)
      modifies this
      ensures projectData == old(projectData).(description := description)
      ensures step == old(step) && projectId == old(projectId)
    {
      projectData := projectData.(description := description);
    }

    method SetAnalysisType(analysisType: string)
      modifies this
      ensures projectData == old(projectData).(analysisType := analysisType)
      ensures step == old(step) && projectId == old(projectId)
    {
      projectData := projectData.(analysisType := analysisType);
    }

    /** Next is pressed on the form, which is shown only at the first step.
        The name field is required, so an empty name sends nothing; otherwise
        `createProject` is called with the form as it stands. Nothing changes
        until that call returns (see `Created`), and the button stays enabled
        meanwhile. */
    method Submit() returns (request: Option<ProjectData>)
      requires step == 0
      ensures request.Some? <==> projectData.name != ""
      ensures request.Some? ==> request.value == projectData
    {
      request := if projectData.name != "" then Some(projectData) else None;
    }

    /** A `createProject` call returns. It is awaited, so it may arrive at
        any step: with an id the wizard stores it and moves to the upload
        step, replacing any earlier id; on failure only a toast appears. */
    method Created(created: Option<ProjectId>)
      requires Valid()
      modifies this
      ensures Valid()
      ensures projectData == old(projectData)
      ensures created.Some? ==> step == 1 && projectId == created
      ensures created.None? ==> step == old(step) && projectId == old(projectId)
    {
      match created
      case Some(id) =>
        projectId := Some(id);
        step := 1;
      case None =>
    }

    /** The upload step completed. The upload is awaited before the call, and
        the Back button stays usable meanwhile, so the call may arrive at any
        step once a project exists. */
    method UploadComplete()
      requires Valid() && projectId.Some?
      modifies this
      ensures Valid() && step == 2
      ensures projectId == old(projectId) && projectData == old(projectData)
    {
      step := 2;
    }

    /** Back from the upload step to the form, keeping the created id. */
    method UploadBack()
      requires Valid() && Current().Upload?
      modifies this
      ensures Valid() && step == 0
      ensures projectId == old(projectId) && projectData == old(projectData)
    {
      step := 0;
    }

    /** The mapping was saved. The save is awaited before the call, so, as
        for the upload, it may arrive at any step once a project exists. */
    method MappingComplete()
      requires Valid() && projectId.Some?
      modifies this
      ensures Valid() && step == 3
      ensures projectId == old(projectId) && projectData == old(projectData)
    {
      step := 3;
    }

    method MappingBack()
      requires Valid() && Current().Mapping?
      modifies this
      ensures Valid() && step == 1
      ensures projectId == old(projectId) && projectData == old(projectData)
    {
      step := 1;
    }

    method ResultsBack()
      requires Valid() && Current().ResultsScreen?
      modifies this
      ensures Valid() && step == 2
      ensures projectId == old(projectId) && projectData == old(projectData)
    {
      step := 2;
    }
  }

  /** A project created from the form, uploaded and mapped reaches the results
      screen for that project, with the form data it was created from. */
  method Walkthrough(name: string, analysisType: string, id: ProjectId) returns (panel: Panel, data: ProjectData)
    requires name != ""
    ensures panel == ResultsScreen(id)
    ensures data == ProjectData(name, "", analysisType)
  {
    var w := new Wizard();
    w.SetName(name);
    w.SetAnalysisType(analysisType);
    var request := w.Submit();
    assert request.Some?;
    w.Created(Some(id));
    w.UploadComplete();
    w.MappingComplete();
    panel := w.Current();
    data := w.projectData;
  }

  /** Back pressed while the upload is still in flight: the wizard returns to
      the form, and the upload finishing then moves it on to the mapping
      screen. */
  method BackDuringUpload(name: string, id: ProjectId) returns (panel: Panel)
    requires name != ""
    ensures panel == Mapping(id)
  {
    var w := new Wizard();
    w.SetName(name);
    var request := w.Submit();
    assert request.Some?;
    w.Created(Some(id));
    w.UploadBack();
    assert w.Current() == DetailsForm;
    w.UploadComplete();
    panel := w.Current();
  }

  /** Next pressed twice before the first creation returns: both presses
      create a project from the same form. When the second creation returns
      after the first project's upload has finished, the wizard is back at the
      upload step, now for the second project. */
  method DoubleSubmit(name: string, first: ProjectId, second: ProjectId)
    returns (request1: Option<ProjectData>, request2: Option<ProjectData>, panel: Panel)
    requires name != ""
    ensures request1 == request2 == Some(ProjectData(name, "", Analysis.VanWestendorp))
    ensures panel == Upload(second)
  {
    var w := new Wizard();
    w.SetName(name);
    request1 := w.Submit();
    request2 := w.Submit();
    w.Created(Some(first));
    w.UploadComplete();
    assert w.Current() == Mapping(first);
    w.Created(Some(second));
    panel := w.Current();
  }
}
