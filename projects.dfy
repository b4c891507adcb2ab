/**
 * The project showcase (src/pages/Projects.jsx): the `projects` collection with
 * its fallback placeholder data, the pessimistic delete, the create/update form
 * with its comma-separated tech-stack field, and the modal flags around them.
 * The page itself checks no tier: only the buttons are hidden from non-admins.
 */
module Projects {
  import opened Wrappers
  import opened Seqs
  import opened Text
  import opened ToastContext
  import opened AuthContext

  const DELETED_MESSAGE: string := "Project deleted successfully"
  const DELETE_ERROR_PREFIX: string := "Error deleting project: "
  const UPDATED_MESSAGE: string := "Project updated successfully"
  const CREATED_MESSAGE: string := "Project created successfully"
  const SAVE_ERROR_PREFIX: string := "Error saving project: "

  /** A row of the `projects` collection; `techStack`, `link` and `github` may be null. */
  datatype Project = Project(id: int, title: string, description: string,
                             techStack: Option<seq<string>>, link: Option<string>, github: Option<string>)

  /** The edit form: every field is text, the tech stack comma-separated. */
  datatype FormData = FormData(title: string, description: string, techStack: string, link: string, github: string)

  /** What a save sends to the backend. */
  datatype Payload = Payload(title: string, description: string, techStack: seq<string>, link: string, github: string)

  /** The write a save issues: an update of the project being edited, or an insert. */
  datatype WriteRequest = Update(id: int, payload: Payload) | Insert(payload: Payload)

  /** `DUMMY_PROJECTS`, shown when there is no backend or the first load fails. */
  const DUMMY_PROJECTS: seq<Project> := [
    Project(1, "Finance Dashboard",
      "A comprehensive dashboard for tracking personal expenses and investments with real-time data visualization.",
      Some(["React", "D3.js", "Supabase"]), Some("#"), Some("#")),
    Project(2, "E-commerce Platform",
      "Minimalist online store with seamless checkout experience and administrative control panel.",
      Some(["Next.js", "Stripe", "Tailwind"]), Some("#"), Some("#"))
  ]

  /** The form of `handleAddNew`: every field empty. */
  const EMPTY_FORM: FormData := FormData("", "", "", "", "")

  /** `(p: Project) => p.id !== id`. */
  function ProjectIdIsNot(id: int): Project -> bool
  {
    (p: Project) => p.id != id
  }

  /** `s => s` as a filter: keeps the non-empty strings. */
  function NonEmpty(): string -> bool
  {
    (s: string) => s != ""
  }

  /**
   * `formData.tech_stack.split(',').map(s => s.trim()).filter(s => s)`: the
   * trimmed pieces between commas, empty ones dropped, in input order.
   */
  function ParseTechStack(text: string): (r: seq<string>)
    ensures forall x :: x in r ==> x != ""
  {
    Filter(NonEmpty(), Map(Trim, Split(text, ',')))
  }

  /** Every entry of the parse is a tech name: non-empty, trimmed and comma-free. */
  lemma ParseYieldsTechNames(text: string)
    ensures forall x :: x in ParseTechStack(text) ==> IsTechName(x)
  {
    var pieces := Split(text, ',');
    var trimmed := Map(Trim, pieces);
    forall i | 0 <= i < |trimmed| ensures ',' !in trimmed[i] {
      TrimKeepsChars(pieces[i]);
    }
  }

  /**
   * The parse keeps the order of the input: its entries are the non-empty trimmed
   * pieces, in the order the pieces stand in the text.
   */
  lemma ParseKeepsOrder(text: string)
    ensures IsSubseq(ParseTechStack(text), Map(Trim, Split(text, ',')))
    ensures forall x :: x in Map(Trim, Split(text, ',')) && x != "" ==> x in ParseTechStack(text)
  {
    FilterIsSubseq(NonEmpty(), Map(Trim, Split(text, ',')));
    FilterCounts(NonEmpty(), Map(Trim, Split(text, ',')));
  }

  /** `tech_stack.join(', ')`. */
  function JoinTechStack(items: seq<string>): (r: string)
    ensures items == [] ==> r == ""
    ensures items != [] ==> items[0] <= r
  {
    Join(items, ", ")
  }

  /** A tech-stack entry the text field can carry unchanged: non-empty, trimmed, comma-free. */
  predicate IsTechName(x: string)
  {
    x != "" && IsTrimmed(x) && ',' !in x
  }

  /** The pieces of a `', '`-joined list, trimmed, are the list again. */
  lemma {:induction false} TrimmedPiecesOfJoin(items: seq<string>)
    requires items != []
    requires forall i :: 0 <= i < |items| ==> IsTrimmed(items[i]) && ',' !in items[i]
    ensures Map(Trim, Split(JoinTechStack(items), ',')) == items
  {
    if |items| == 1 {
      SplitSingle(items[0], ',');
    } else {
      var rest := items[1..];
      var tail := JoinTechStack(rest);
      assert JoinTechStack(items) == items[0] + [','] + ([' '] + tail);
      SplitHead(items[0], ',', [' '] + tail);
      TrimmedPiecesOfJoin(rest);
      var pieces := Split(tail, ',');
      assert Split([' '] + tail, ',') == [[' '] + pieces[0]] + pieces[1..] by {
        assert ([' '] + tail)[1..] == tail;
      }
      TrimLeadingSpace(' ', pieces[0]);
      assert Map(Trim, pieces)[0] == rest[0];
      assert Map(Trim, pieces[1..]) == Map(Trim, pieces)[1..];
      assert Map(Trim, Split([' '] + tail, ',')) == [Trim(pieces[0])] + Map(Trim, pieces[1..]);
      assert Map(Trim, Split(JoinTechStack(items), ',')) == [items[0]] + Map(Trim, Split([' '] + tail, ','));
      assert rest == [rest[0]] + rest[1..];
    }
  }

  /** Round trip: parsing the `', '`-joined list of tech names gives the list back. */
  lemma ParseJoin(items: seq<string>)
    requires forall i :: 0 <= i < |items| ==> IsTechName(items[i])
    ensures ParseTechStack(JoinTechStack(items)) == items
  {
    if items != [] {
      TrimmedPiecesOfJoin(items);
      FilterAll(NonEmpty(), items);
    }
  }

  /** The form `handleEdit` fills in for a project. */
  function FormFor(p: Project): (f: FormData)
    ensures f.title == p.title && f.description == p.description
    ensures f.techStack == (if p.techStack.Some? then JoinTechStack(p.techStack.value) else "")
    ensures f.link == p.link.GetOr("") && f.github == p.github.GetOr("")
  {
    FormData(p.title, p.description,
             if p.techStack.Some? then JoinTechStack(p.techStack.value) else "",
             p.link.GetOr(""), p.github.GetOr(""))
  }

  /** The payload `handleSubmit` builds from the form. */
  function PayloadOf(f: FormData): (p: Payload)
    ensures p.title == f.title && p.description == f.description
    ensures p.techStack == ParseTechStack(f.techStack)
    ensures p.link == f.link && p.github == f.github
  {
    Payload(f.title, f.description, ParseTechStack(f.techStack), f.link, f.github)
  }

  /**
   * Opening a project for editing and saving it untouched sends the project back,
   * with null fields as empty ones, provided its tech stack is made of tech names.
   */
  lemma EditThenSaveUnchanged(p: Project)
    requires p.techStack.Some? ==> forall i :: 0 <= i < |p.techStack.value| ==> IsTechName(p.techStack.value[i])
    ensures PayloadOf(FormFor(p)) == Payload(p.title, p.description, p.techStack.GetOr([]), p.link.GetOr(""), p.github.GetOr(""))
  {
    if p.techStack.Some? {
      ParseJoin(p.techStack.value);
    } else {
      ParseJoin([]);
    }
  }

  /**
   * What `fetchProjects` leaves in `projects`. A missing backend or a failed load
   * never leaves the showcase empty, and a failed load never discards what is shown.
   */
  function AfterFetch(configured: bool, current: seq<Project>, fetched: Outcome<Option<seq<Project>>>): (r: seq<Project>)
    ensures !configured ==> r == DUMMY_PROJECTS
    ensures configured && fetched.Ok? ==> r == fetched.data.GetOr([])
    ensures configured && fetched.Err? && current == [] ==> r == DUMMY_PROJECTS
    ensures configured && fetched.Err? && current != [] ==> r == current
    ensures configured && fetched.Err? ==> r != []
  {
    if !configured then DUMMY_PROJECTS
    else if fetched.Ok? then fetched.data.GetOr([])
    else if |current| == 0 then DUMMY_PROJECTS
    else current
  }

  /** The write `handleSubmit` issues: an update of the edited project's id, or an insert; either with the form's payload. */
  function RequestFor(editing: Option<Project>, form: FormData): (w: WriteRequest)
    ensures w.payload == PayloadOf(form)
    ensures w.Update? <==> editing.Some?
    ensures w.Update? ==> w.id == editing.value.id
  {
    if editing.Some? then Update(editing.value.id, PayloadOf(form)) else Insert(PayloadOf(form))
  }

  /** The id held for deletion is truthy: present and not `0`. */
  predicate Truthy(id: Option<int>)
    ensures Truthy(id) <==> id.Some? && id.value != 0
  {
    id.Some? && id.value != 0
  }

  /** The `Projects` page's state. */
  class ProjectsPage {
    const auth: AuthProvider
    const toasts: ToastProvider
    var projects: seq<Project>
    var loading: bool
    var isModalOpen: bool
    var deleteModalOpen: bool
    var projectToDelete: Option<int>
    var editingProject: Option<Project>
    var formData: FormData
    var formLoading: bool

    constructor (auth: AuthProvider, toasts: ToastProvider)
      ensures this.auth == auth && this.toasts == toasts
      ensures projects == [] && loading && !isModalOpen && !deleteModalOpen
      ensures projectToDelete == None && editingProject == None
      ensures formData == EMPTY_FORM && !formLoading
    {
      this.auth, this.toasts := auth, toasts;
      projects, loading, isModalOpen, deleteModalOpen := [], true, false, false;
      projectToDelete, editingProject, formData, formLoading := None, None, EMPTY_FORM, false;
    }

    /**
     * `fetchProjects()`: the placeholder projects without a backend; the server's
     * rows (or `[]`) on success; on failure the placeholders if nothing is shown
     * yet, else the list as it was. Loading ends in every case.
     */
    method FetchProjects(fetched: Outcome<Option<seq<Project>>>)
      modifies this`projects, this`loading
      ensures projects == AfterFetch(auth.configured, old(projects), fetched)
      ensures !loading
    {
      if !auth.configured {
        projects := DUMMY_PROJECTS;
        loading := false;
        return;
      }
      if fetched.Ok? {
        projects := fetched.data.GetOr([]);
      } else if |projects| == 0 {
        projects := DUMMY_PROJECTS;
      }
      loading := false;
    }

    /** `handleEdit(project)`: remember the project, fill the form from it, open the modal. */
    method HandleEdit(p: Project)
      modifies this`editingProject, this`formData, this`isModalOpen
      ensures editingProject == Some(p) && formData == FormFor(p) && isModalOpen
    {
      editingProject := Some(p);
      formData := FormFor(p);
      isModalOpen := true;
    }

    /** `handleAddNew()`: no project being edited, an empty form, the modal open. */
    method HandleAddNew()
      modifies this`editingProject, this`formData, this`isModalOpen
      ensures editingProject == None && formData == EMPTY_FORM && isModalOpen
    {
      editingProject := None;
      formData := EMPTY_FORM;
      isModalOpen := true;
    }

    /** `confirmDelete(id)`: remember the id and open the confirmation. */
    method ConfirmDelete(id: int)
      modifies this`projectToDelete, this`deleteModalOpen
      ensures projectToDelete == Some(id) && deleteModalOpen
    {
      projectToDelete := Some(id);
      deleteModalOpen := true;
    }

    /**
     * `handleDelete()`, pessimistic. With a falsy id it does nothing at all. Otherwise
     * the list loses exactly the projects with that id only if the server confirms,
     * one toast reports the outcome, and the confirmation closes and forgets the id.
     */
    method HandleDelete(deleted: Outcome<()>, toastId: string)
      requires toasts.Valid()
      requires !auth.configured ==> deleted.Err?
      modifies this`projects, this`deleteModalOpen, this`projectToDelete, toasts
      ensures toasts.Valid()
      ensures !Truthy(old(projectToDelete)) ==> && projects == old(projects) && unchanged(toasts)
                                                && deleteModalOpen == old(deleteModalOpen)
                                                && projectToDelete == old(projectToDelete)
      ensures Truthy(old(projectToDelete)) ==> && !deleteModalOpen && projectToDelete == None
      ensures Truthy(old(projectToDelete)) && deleted.Ok? ==>
        && projects == Filter(ProjectIdIsNot(old(projectToDelete).value), old(projects))
        && ToastAdded(toasts, Toast(toastId, DELETED_MESSAGE, "success"))
      ensures Truthy(old(projectToDelete)) && deleted.Err? ==>
        && projects == old(projects)
        && ToastAdded(toasts, Toast(toastId, DELETE_ERROR_PREFIX + deleted.message, "error"))
    {
      if !Truthy(projectToDelete) {
        return;
      }
      var id := projectToDelete.value;
      if deleted.Ok? {
        projects := Filter(ProjectIdIsNot(id), projects);
        toasts.AddToast(toastId, DELETED_MESSAGE, Some("success"));
      } else {
        toasts.AddToast(toastId, DELETE_ERROR_PREFIX + deleted.message, Some("error"));
      }
      deleteModalOpen := false;
      projectToDelete := None;
    }

    /**
     * `handleSubmit()`: sends the write `RequestFor` describes and returns it. On success it reloads the
     * list, closes the modal and shows one toast saying "updated" or "created"; on
     * failure it shows one error toast and the modal stays as it was. The form is
     * no longer busy afterwards either way.
     */
    method HandleSubmit(written: Outcome<()>, fetched: Outcome<Option<seq<Project>>>, toastId: string)
      returns (sent: WriteRequest)
      requires toasts.Valid()
      requires !auth.configured ==> written.Err?
      modifies this`formLoading, this`projects, this`loading, this`isModalOpen, toasts
      ensures toasts.Valid()
      ensures sent == RequestFor(editingProject, formData)
      ensures !formLoading
      ensures written.Ok? ==>
        && projects == AfterFetch(auth.configured, old(projects), fetched) && !loading && !isModalOpen
        && ToastAdded(toasts, Toast(toastId, if editingProject.Some? then UPDATED_MESSAGE else CREATED_MESSAGE, "success"))
      ensures written.Err? ==>
        && projects == old(projects) && loading == old(loading) && isModalOpen == old(isModalOpen)
        && ToastAdded(toasts, Toast(toastId, SAVE_ERROR_PREFIX + written.message, "error"))
    {
      formLoading := true;
      var message, kind;
      if written.Ok? {
        FetchProjects(fetched);
        isModalOpen := false;
        message, kind := if editingProject.Some? then UPDATED_MESSAGE else CREATED_MESSAGE, "success";
      } else {
        message, kind := SAVE_ERROR_PREFIX + written.message, "error";
      }
      // Either branch ends with its one toast.
      toasts.AddToast(toastId, message, Some(kind));
      formLoading := false;
      // Built from the form as it stood before the write; nothing here changes the form or the edited project.
      sent := RequestFor(editingProject, formData);
    }
  }

  /** A successful delete removes exactly the projects with that id and keeps the rest in order. */
  lemma DeleteRemovesExactly(ps: seq<Project>, id: int)
    ensures forall p :: p in Filter(ProjectIdIsNot(id), ps) <==> p in ps && p.id != id
    ensures forall p :: p in ps && p.id != id ==> multiset(Filter(ProjectIdIsNot(id), ps))[p] == multiset(ps)[p]
    ensures IsSubseq(Filter(ProjectIdIsNot(id), ps), ps)
  {
    FilterCounts(ProjectIdIsNot(id), ps);
    FilterIsSubseq(ProjectIdIsNot(id), ps);
  }
}
