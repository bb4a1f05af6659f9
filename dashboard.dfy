/**
 * The dashboard: the list of the user's projects with a prospect count each,
 * a status badge per project, and the "new project" action. Only the pure
 * parts are modelled: the badge lookups, the count enrichment applied to the
 * query's answer, and the record a new project is inserted with.
 */
module Dashboard {
  import opened Wrappers
  import Status
  import ProjectDetail

  /** A row of the project query, with its embedded `prospects` list when the query returned one. */
  datatype ProjectRow<P> = ProjectRow(
    id: string,
    name: string,
    status: string,
    createdAt: string,
    prospects: Option<seq<P>>)

  /** A row after enrichment: `{ ...project, _count: { prospects } }`. */
  datatype ProjectWithCount<P> = ProjectWithCount(
    id: string,
    name: string,
    status: string,
    createdAt: string,
    prospects: Option<seq<P>>,
    prospectCount: nat)

  /** The record `createNewProject` inserts. */
  datatype NewProject = NewProject(name: string, status: string, userId: string)

  const DefaultColor: string := "text-gray-600 bg-gray-100"

  /** `getStatusColor`: a class for completed, processing and error; the grey default for everything else, draft included. */
  function StatusColor(status: string): (color: string)
    ensures color != DefaultColor <==> status in {Status.Completed, Status.Processing, Status.Error}
  {
    if status == Status.Completed then "text-green-600 bg-green-100"
    else if status == Status.Processing then "text-blue-600 bg-blue-100"
    else if status == Status.Error then "text-red-600 bg-red-100"
    else DefaultColor
  }

  /** The three coloured statuses get three different classes. */
  lemma StatusColorsDistinct()
    ensures StatusColor(Status.Completed) != StatusColor(Status.Processing)
    ensures StatusColor(Status.Completed) != StatusColor(Status.Error)
    ensures StatusColor(Status.Processing) != StatusColor(Status.Error)
    ensures StatusColor(Status.Draft) == DefaultColor
  {
  }

  /** `getStatusText`: the same switch as the project page's, written out again here. */
  function StatusText(status: string): (text: string)
    ensures !Status.IsKnown(status) ==> text == status
  {
    if status == Status.Draft then "Brouillon"
    else if status == Status.Processing then "En cours"
    else if status == Status.Completed then "Terminé"
    else if status == Status.Error then "Erreur"
    else status
  }

  /** The dashboard and the project page label every status alike. */
  lemma StatusTextAgrees(status: string)
    ensures StatusText(status) == ProjectDetail.StatusText(status)
  {
  }

  /** The two pages give a status a coloured badge for exactly the same statuses. */
  lemma StatusColorAgreesOnColoured(status: string)
    ensures (StatusColor(status) == DefaultColor) == (ProjectDetail.StatusColor(status) == ProjectDetail.DefaultColor)
  {
  }

  /** `project.prospects?.length || 0` */
  function ProspectCount<P>(prospects: Option<seq<P>>): (count: nat)
    ensures prospects.Some? ==> count == |prospects.value|
    ensures prospects.None? ==> count == 0
  {
    if prospects.Some? then |prospects.value| else 0
  }

  /** The per-row step of the enrichment: every field of the row is kept and the count is added. */
  function WithCount<P>(row: ProjectRow<P>): (r: ProjectWithCount<P>)
    ensures r.id == row.id && r.name == row.name && r.status == row.status
    ensures r.createdAt == row.createdAt && r.prospects == row.prospects
    ensures r.prospectCount == ProspectCount(row.prospects)
  {
    ProjectWithCount(row.id, row.name, row.status, row.createdAt, row.prospects, ProspectCount(row.prospects))
  }

  /** `data.map(...)`: one enriched row per row, in the same order. */
  function WithCounts<P>(rows: seq<ProjectRow<P>>): (r: seq<ProjectWithCount<P>>)
    ensures |r| == |rows|
    ensures forall i :: 0 <= i < |rows| ==> r[i] == WithCount(rows[i])
  {
    if rows == [] then [] else [WithCount(rows[0])] + WithCounts(rows[1..])
  }

  /** `data?.map(...) || []`: no answer from the query gives the empty list. */
  function ProjectsWithCounts<P>(data: Option<seq<ProjectRow<P>>>): (projects: seq<ProjectWithCount<P>>)
    ensures data.None? ==> projects == []
    ensures data.Some? ==> |projects| == |data.value|
    ensures data.Some? ==> forall i :: 0 <= i < |projects| ==> projects[i] == WithCount(data.value[i])
  {
    if data.Some? then WithCounts(data.value) else []
  }

  /** Dropping the added count gives back the row the query returned. */
  function WithoutCount<P>(p: ProjectWithCount<P>): ProjectRow<P>
  {
    ProjectRow(p.id, p.name, p.status, p.createdAt, p.prospects)
  }

  /** The enrichment loses nothing: removing the counts gives back exactly the query's rows. */
  lemma WithCountsRoundTrip<P>(rows: seq<ProjectRow<P>>)
    ensures forall i :: 0 <= i < |rows| ==> WithoutCount(WithCounts(rows)[i]) == rows[i]
  {
  }

  /** The record `createNewProject` inserts: it is named after the creation date and always starts as a draft. */
  function NewProjectRecord(createdOn: string, userId: string): (p: NewProject)
    ensures p.status == Status.Draft
    ensures p.userId == userId
  {
    NewProject("Projet " + createdOn, Status.Draft, userId)
  }

  /** A project just created opens on the upload step, with the draft label, whatever step was shown. */
  lemma NewProjectOpensOnUpload(createdOn: string, userId: string, current: ProjectDetail.Step)
    ensures ProjectDetail.StepAfterLoad(current, NewProjectRecord(createdOn, userId).status) == ProjectDetail.Upload
    ensures StatusText(NewProjectRecord(createdOn, userId).status) == "Brouillon"
  {
  }
}
