/** The project endpoints (backend/app/api/v1/endpoints/projects.py): the
    listing, a project with its files, creation, patching, the chats of a
    project, and uploading, reading and deleting its files. */
module Projects {
  import opened Common
  import opened Strings
  import opened Store
  import opened Pagination
  import opened Chats

  /** The project lookup every per-project endpoint depends on. */
  function ProjectNotFound<T>(id: ProjectId): (r: Response<T>)
    ensures r.Fail? && r.status == 404
  {
    Fail(404, Detail("Project " + id + " not found"))
  }

  function ChatCount(chats: seq<Chat>, id: ProjectId): nat {
    |ChatsOf(chats, id)|
  }

  function FileCount(files: seq<ProjectFile>, id: ProjectId): nat {
    |FilesOf(files, id)|
  }

  /** A ProjectResponse: the row with its chat and file counts. */
  datatype ProjectSummary = ProjectSummary(project: Project, chatCount: nat, fileCount: nat)

  // ---------------------------------------------------------------------------
  // Listing and reading

  predicate ProjectListed(p: Project, includeArchived: bool) {
    includeArchived || !p.isArchived
  }

  function MatchingProjects(projects: seq<Project>, includeArchived: bool): (r: seq<Project>)
    ensures forall p :: p in r <==> p in projects && ProjectListed(p, includeArchived)
  {
    Filter(projects, (p: Project) => ProjectListed(p, includeArchived))
  }

  /** The listed projects, most recently updated first. */
  function OrderedProjects(projects: seq<Project>, includeArchived: bool): (r: seq<Project>)
    ensures SortedBy(r, ProjectNewerFirst)
    ensures multiset(r) == multiset(MatchingProjects(projects, includeArchived))
    ensures |r| == |MatchingProjects(projects, includeArchived)|
  {
    OrderingsArePreorders();
    Sort(MatchingProjects(projects, includeArchived), ProjectNewerFirst)
  }

  datatype ProjectPage = ProjectPage(projects: seq<ProjectSummary>, total: nat, page: nat, pageSize: nat, totalPages: nat)

  /** list_projects: one page of the listed projects, newest first, each with
      its counts, and the totals over all listed projects. */
  method ListProjects(db: Database, page: nat, pageSize: nat, includeArchived: bool) returns (r: ProjectPage)
    requires page >= 1 && 1 <= pageSize <= 100
    ensures r.total == |MatchingProjects(db.projects, includeArchived)|
    ensures r.page == page && r.pageSize == pageSize && r.totalPages == TotalPages(r.total, pageSize)
    ensures var rows := PageSlice(OrderedProjects(db.projects, includeArchived), page, pageSize);
      && |r.projects| == |rows|
      && forall i :: 0 <= i < |rows| ==>
           r.projects[i] == ProjectSummary(rows[i], ChatCount(db.chats, rows[i].id), FileCount(db.files, rows[i].id))
  {
    var total := |MatchingProjects(db.projects, includeArchived)|;
    var projects := PageSlice(OrderedProjects(db.projects, includeArchived), page, pageSize);
    var responses: seq<ProjectSummary> := [];
    for i := 0 to |projects|
      invariant |responses| == i
      invariant forall k :: 0 <= k < i ==>
        responses[k] == ProjectSummary(projects[k], ChatCount(db.chats, projects[k].id), FileCount(db.files, projects[k].id))
    {
      var p := projects[i];
      responses := responses + [ProjectSummary(p, ChatCount(db.chats, p.id), FileCount(db.files, p.id))];
    }
    r := ProjectPage(responses, total, page, pageSize, TotalPages(total, pageSize));
  }

  /** Every project on a page is listed and the page is newest first. */
  lemma ListedProjectsMatch(projects: seq<Project>, page: nat, pageSize: nat, includeArchived: bool)
    requires page >= 1 && pageSize >= 1
    ensures var rows := PageSlice(OrderedProjects(projects, includeArchived), page, pageSize);
      && SortedBy(rows, ProjectNewerFirst)
      && forall p :: p in rows ==> p in projects && ProjectListed(p, includeArchived)
  {
    var ordered := OrderedProjects(projects, includeArchived);
    PageOfSorted(ordered, page, pageSize, ProjectNewerFirst);
    assert forall p :: p in ordered ==> p in multiset(MatchingProjects(projects, includeArchived));
  }

  /** A ProjectWithDetails. */
  datatype ProjectDetail = ProjectDetail(project: Project, chatCount: nat, fileCount: nat, files: seq<ProjectFile>)

  /** get_project: the project with its files in created_at order. */
  function GetProject(projects: seq<Project>, chats: seq<Chat>, files: seq<ProjectFile>, id: ProjectId)
    : (r: Response<ProjectDetail>)
    ensures r.Fail? <==> forall i :: 0 <= i < |projects| ==> projects[i].id != id
    ensures r.Fail? ==> r == ProjectNotFound(id)
    ensures r.Ok? ==>
      && r.value.project in projects && r.value.project.id == id
      && SortedBy(r.value.files, FileBefore)
      && multiset(r.value.files) == multiset(FilesOf(files, id))
      && r.value.fileCount == |r.value.files|
      && r.value.chatCount == ChatCount(chats, id)
  {
    match IndexOf(projects, ProjectKey, id)
    case None => ProjectNotFound(id)
    case Some(k) =>
      var sorted := FilesByCreation(files, id);
      Ok(ProjectDetail(projects[k], ChatCount(chats, id), |sorted|, sorted))
  }

  lemma GetProjectCountsFiles(projects: seq<Project>, chats: seq<Chat>, files: seq<ProjectFile>, id: ProjectId)
    requires GetProject(projects, chats, files, id).Ok?
    ensures GetProject(projects, chats, files, id).value.fileCount == FileCount(files, id)
  {
    var r := GetProject(projects, chats, files, id).value;
    assert |r.files| == |multiset(r.files)| == |multiset(FilesOf(files, id))|;
  }

  /** get_project_chats: the project's chats, archived or not, newest first. */
  method GetProjectChats(db: Database, id: ProjectId, page: nat, pageSize: nat) returns (r: Response<ChatPage>)
    requires page >= 1 && 1 <= pageSize <= 100
    ensures r.Fail? <==> forall i :: 0 <= i < |db.projects| ==> db.projects[i].id != id
    ensures r.Fail? ==> r == ProjectNotFound(id)
    ensures r.Ok? ==>
      var rows := PageSlice(OrderedChats(db.chats, true, InProject(id)), page, pageSize);
      && r.value.total == |MatchingChats(db.chats, true, InProject(id))|
      && r.value.totalPages == TotalPages(r.value.total, pageSize)
      && |r.value.chats| == |rows|
      && forall i :: 0 <= i < |rows| ==> r.value.chats[i] == ChatSummary(rows[i], MessageCount(db.messages, rows[i].id))
  {
    if IndexOf(db.projects, ProjectKey, id).None? {
      return ProjectNotFound(id);
    }
    var total := |MatchingChats(db.chats, true, InProject(id))|;
    var chats := PageSlice(OrderedChats(db.chats, true, InProject(id)), page, pageSize);
    var responses := SummarizeChats(db.messages, chats);
    r := Ok(ChatPage(responses, total, page, pageSize, TotalPages(total, pageSize)));
  }

  /** The project's chats are those of the chat listing filtered by the
      project's id with archived chats included. */
  lemma ProjectChatsAreFilteredListing(chats: seq<Chat>, id: ProjectId)
    requires !MeansNoProject(id)
    ensures OrderedChats(chats, true, InProject(id)) == OrderedChats(chats, true, ClassifyProjectFilter(Some(id)))
    ensures forall c :: c in MatchingChats(chats, true, InProject(id)) <==> c in ChatsOf(chats, id)
  {
  }

  // ---------------------------------------------------------------------------
  // Creating and patching

  /** The body create_project reads. */
  datatype ProjectCreate = ProjectCreate(
    name: string, customInstructions: Option<string>,
    defaultModel: Option<string>, temperature: Option<Temperature>, maxTokens: Option<int>)

  /** create_project: the project is added unarchived, with no chats or files. */
  method CreateProject(db: Database, id: ProjectId, data: ProjectCreate, now: Time) returns (r: ProjectSummary)
    modifies db`projects
    ensures r.project == Project(id, data.name, data.customInstructions, false,
                                 data.defaultModel, data.temperature, data.maxTokens, now, now)
    ensures r.chatCount == 0 && r.fileCount == 0
    ensures db.projects == old(db.projects) + [r.project]
  {
    var project := Project(id, data.name, data.customInstructions, false,
                           data.defaultModel, data.temperature, data.maxTokens, now, now);
    db.projects := db.projects + [project];
    r := ProjectSummary(project, 0, 0);
  }

  /** A ProjectUpdate body, with the fields update_project reads. */
  datatype ProjectPatch = ProjectPatch(
    name: Option<string>, customInstructions: Option<string>, isArchived: Option<bool>,
    defaultModel: Option<string>, temperature: Option<Temperature>, maxTokens: Option<int>)

  function ApplyProjectPatch(p: Project, patch: ProjectPatch): (r: Project)
    ensures r.id == p.id && r.createdAt == p.createdAt && r.updatedAt == p.updatedAt
    ensures r.name == patch.name.GetOr(p.name)
    ensures r.customInstructions == (if patch.customInstructions.Some? then patch.customInstructions else p.customInstructions)
    ensures r.isArchived == patch.isArchived.GetOr(p.isArchived)
    ensures r.defaultModel == (if patch.defaultModel.Some? then patch.defaultModel else p.defaultModel)
    ensures r.temperature == (if patch.temperature.Some? then patch.temperature else p.temperature)
    ensures r.maxTokens == (if patch.maxTokens.Some? then patch.maxTokens else p.maxTokens)
  {
    var p1 := if patch.name.Some? then p.(name := patch.name.value) else p;
    var p2 := if patch.customInstructions.Some? then p1.(customInstructions := patch.customInstructions) else p1;
    var p3 := if patch.isArchived.Some? then p2.(isArchived := patch.isArchived.value) else p2;
    var p4 := if patch.defaultModel.Some? then p3.(defaultModel := patch.defaultModel) else p3;
    var p5 := if patch.temperature.Some? then p4.(temperature := patch.temperature) else p4;
    if patch.maxTokens.Some? then p5.(maxTokens := patch.maxTokens) else p5
  }

  /** A patch never clears an optional field and applying it twice is applying
      it once. */
  lemma ProjectPatchFacts(p: Project, patch: ProjectPatch)
    ensures ApplyProjectPatch(ApplyProjectPatch(p, patch), patch) == ApplyProjectPatch(p, patch)
    ensures p.customInstructions.Some? ==> ApplyProjectPatch(p, patch).customInstructions.Some?
    ensures p.defaultModel.Some? ==> ApplyProjectPatch(p, patch).defaultModel.Some?
    ensures p.temperature.Some? ==> ApplyProjectPatch(p, patch).temperature.Some?
    ensures p.maxTokens.Some? ==> ApplyProjectPatch(p, patch).maxTokens.Some?
  {
  }

  /** update_project: 404 for an unknown project; otherwise the patch is
      applied and the counts reported. */
  method UpdateProject(db: Database, id: ProjectId, patch: ProjectPatch) returns (r: Response<ProjectSummary>)
    modifies db`projects
    ensures (forall i :: 0 <= i < |old(db.projects)| ==> old(db.projects)[i].id != id) <==> r.Fail?
    ensures r.Fail? ==> r == ProjectNotFound(id) && db.projects == old(db.projects)
    ensures r.Ok? ==>
      && (exists k :: 0 <= k < |old(db.projects)| && old(db.projects)[k].id == id
            && r.value.project == ApplyProjectPatch(old(db.projects)[k], patch)
            && db.projects == old(db.projects)[k := r.value.project])
      && r.value.chatCount == ChatCount(db.chats, id) && r.value.fileCount == FileCount(db.files, id)
  {
    var found := IndexOf(db.projects, ProjectKey, id);
    if found.None? {
      return ProjectNotFound(id);
    }
    var k := found.value;
    var project := PatchProject(db.projects[k], patch);
    db.projects := db.projects[k := project];
    r := Ok(ProjectSummary(project, ChatCount(db.chats, id), FileCount(db.files, id)));
  }

  /** The field assignments of update_project, one supplied field at a time. */
  method PatchProject(p: Project, patch: ProjectPatch) returns (project: Project)
    ensures project == ApplyProjectPatch(p, patch)
  {
    project := p;
    if patch.name.Some? {
      project := project.(name := patch.name.value);
    }
    if patch.customInstructions.Some? {
      project := project.(customInstructions := patch.customInstructions);
    }
    if patch.isArchived.Some? {
      project := project.(isArchived := patch.isArchived.value);
    }
    if patch.defaultModel.Some? {
      project := project.(defaultModel := patch.defaultModel);
    }
    if patch.temperature.Some? {
      project := project.(temperature := patch.temperature);
    }
    if patch.maxTokens.Some? {
      project := project.(maxTokens := patch.maxTokens);
    }
  }

  // ---------------------------------------------------------------------------
  // Files

  const PreviewLength: nat := 200

  /** The first 200 characters of the content. */
  function ContentPreview(content: string): (r: string)
    ensures |r| <= PreviewLength && |r| <= |content|
    ensures r == content[..|r|]
    ensures |content| <= PreviewLength ==> r == content
    ensures |content| > PreviewLength ==> |r| == PreviewLength
  {
    if |content| > PreviewLength then content[..PreviewLength] else content
  }

  /** The content is the preview followed by the rest; a preview is its own preview. */
  lemma PreviewFacts(content: string)
    ensures content == ContentPreview(content) + content[|ContentPreview(content)|..]
    ensures ContentPreview(ContentPreview(content)) == ContentPreview(content)
  {
  }

  /** The virtual path `project_{id}/{filename}`. */
  function FilePath(projectId: ProjectId, filename: string): (r: string)
    ensures |r| == 9 + |projectId| + |filename|
  {
    "project_" + projectId + "/" + filename
  }

  /** The path names its project and its file: it splits at its first '/'
      into the project part and the file name (the project id being a UUID,
      which has no '/'). */
  lemma FilePathParts(projectId: ProjectId, filename: string)
    requires '/' !in projectId
    ensures SplitAtFirst(FilePath(projectId, filename), '/') == Some(("project_" + projectId, filename))
  {
    assert "project_" + projectId + "/" + filename == ("project_" + projectId) + ['/'] + filename;
    assert '/' !in "project_";
    SplitAtFirstConcat("project_" + projectId, '/', filename);
  }

  /** A ProjectFileCreate body. */
  datatype FileUpload = FileUpload(filename: string, fileType: string, content: string)

  /** The row upload_file inserts. */
  function NewFile(id: FileId, projectId: ProjectId, upload: FileUpload, now: Time): (f: ProjectFile)
    ensures f.id == id && f.projectId == projectId && f.filename == upload.filename && f.fileType == upload.fileType
    ensures f.fileSize == |upload.content| && f.content == Some(upload.content)
    ensures f.contentPreview == Some(ContentPreview(upload.content))
    ensures f.filePath == FilePath(projectId, upload.filename) && f.createdAt == now
  {
    ProjectFile(id, projectId, upload.filename, FilePath(projectId, upload.filename), upload.fileType,
                |upload.content|, Some(ContentPreview(upload.content)), Some(upload.content), now)
  }

  method UploadFile(db: Database, projectId: ProjectId, id: FileId, upload: FileUpload, now: Time)
    returns (r: Response<ProjectFile>)
    modifies db`files
    ensures (forall i :: 0 <= i < |db.projects| ==> db.projects[i].id != projectId) <==> r.Fail?
    ensures r.Fail? ==> r == ProjectNotFound(projectId) && db.files == old(db.files)
    ensures r.Ok? ==> r.value == NewFile(id, projectId, upload, now) && db.files == old(db.files) + [r.value]
  {
    if IndexOf(db.projects, ProjectKey, projectId).None? {
      return ProjectNotFound(projectId);
    }
    var preview := if |upload.content| > 200 then upload.content[..200] else upload.content;
    var file := ProjectFile(id, projectId, upload.filename, "project_" + projectId + "/" + upload.filename,
                            upload.fileType, |upload.content|, Some(preview), Some(upload.content), now);
    db.files := db.files + [file];
    r := Ok(file);
  }

  /** A file is looked up by its id and its project's id together. */
  function FileOwnerKey(f: ProjectFile): (FileId, ProjectId) {
    (f.id, f.projectId)
  }

  const FileNotFound: Response<ProjectFile> := Fail(404, Detail("File not found"))

  /** get_file: the file, provided it belongs to the project. */
  function GetFile(projects: seq<Project>, files: seq<ProjectFile>, projectId: ProjectId, id: FileId)
    : (r: Response<ProjectFile>)
    ensures (forall i :: 0 <= i < |projects| ==> projects[i].id != projectId) ==> r == ProjectNotFound(projectId)
    ensures (exists i :: 0 <= i < |projects| && projects[i].id == projectId) ==>
      (r == FileNotFound <==> forall i :: 0 <= i < |files| ==> files[i].id != id || files[i].projectId != projectId)
    ensures r.Ok? ==> r.value in files && r.value.id == id && r.value.projectId == projectId
    ensures forall k :: 0 <= k < |files| && files[k].id == id && files[k].projectId == projectId
                     && (forall j :: 0 <= j < k ==> files[j].id != id || files[j].projectId != projectId)
                     && (exists i :: 0 <= i < |projects| && projects[i].id == projectId)
                     ==> r == Ok(files[k])
  {
    if IndexOf(projects, ProjectKey, projectId).None? then ProjectNotFound(projectId)
    else
      match IndexOf(files, FileOwnerKey, (id, projectId))
      case None => FileNotFound
      case Some(k) => Ok(files[k])
  }

  /** delete_file: the file goes only if it belongs to the project; otherwise
      nothing is removed. */
  method DeleteFile(db: Database, projectId: ProjectId, id: FileId) returns (r: Response<()>)
    modifies db`files
    ensures GetFile(db.projects, old(db.files), projectId, id).Fail? <==> r.Fail?
    ensures r.Fail? ==>
      db.files == old(db.files) && r.status == 404
      && (r.detail == Detail("File not found") || r == ProjectNotFound(projectId))
    ensures r.Ok? ==>
      exists k :: 0 <= k < |old(db.files)| && old(db.files)[k].id == id && old(db.files)[k].projectId == projectId
                  && db.files == old(db.files)[..k] + old(db.files)[k + 1..]
  {
    if IndexOf(db.projects, ProjectKey, projectId).None? {
      return ProjectNotFound(projectId);
    }
    var found := IndexOf(db.files, FileOwnerKey, (id, projectId));
    if found.None? {
      return Fail(404, Detail("File not found"));
    }
    var k := found.value;
    db.files := db.files[..k] + db.files[k + 1..];
    r := Ok(());
  }

  /** A file of another project can be neither read nor deleted through this one. */
  lemma ForeignFileHidden(projects: seq<Project>, files: seq<ProjectFile>, projectId: ProjectId, id: FileId)
    requires forall i :: 0 <= i < |files| && files[i].id == id ==> files[i].projectId != projectId
    ensures GetFile(projects, files, projectId, id).Fail?
  {
  }
}
