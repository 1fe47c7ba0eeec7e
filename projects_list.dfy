// The admin project list: the "Add Project" dialog's schema, the FormData it
// builds for `addProject`, the submit and delete flags, and the category label.
module ProjectsList {
  import opened Wrappers
  import opened JsString
  import Actions
  import opened Ui

  /** The dialog's values, field by field in the order of the schema's keys. */
  datatype Values = Values(
    title: string,
    description: string,
    longDescription: Option<string>,
    image: string,
    tags: string,
    demoUrl: Option<string>,
    githubUrl: Option<string>,
    category: string)

  /** The dialog's default values, to which `form.reset()` returns. */
  const Defaults: Values := Values("", "", Some(""), "", "", Some(""), Some(""), "")

  /** `formSchema`; `isUrl` stands for zod's URL recogniser and `.min(n)` counts UTF-16 code units. */
  function Accepts(v: Values, isUrl: string -> bool): (ok: bool)
    ensures ok ==> v.title != [] && |v.description| >= 5 && v.tags != []
  {
    && Utf16Length(v.title) >= 2
    && Utf16Length(v.description) >= 10
    && isUrl(v.image)
    && Utf16Length(v.tags) >= 1
    && OptionalUrl(v.demoUrl, isUrl)
    && OptionalUrl(v.githubUrl, isUrl)
  }

  /** The dialog as it opens, and as `form.reset()` leaves it, cannot be submitted. */
  lemma DefaultsRefused(isUrl: string -> bool)
    ensures !Accepts(Defaults, isUrl)
  {
  }

  /** `Object.entries(values)`. */
  function Entries(v: Values): seq<(string, Option<string>)> {
    [("title", Some(v.title)), ("description", Some(v.description)), ("longDescription", v.longDescription),
     ("image", Some(v.image)), ("tags", Some(v.tags)), ("demoUrl", v.demoUrl),
     ("githubUrl", v.githubUrl), ("category", Some(v.category))]
  }

  /** A field value as `addProject` sees it after the truthiness filter: present only if non-empty. */
  function Present(v: Option<string>): Option<string> {
    if v.Some? && v.value != "" then v else None
  }

  /** The entries `if (value) formData.append(key, value)` keeps, in order. */
  function TruthyEntries(es: seq<(string, Option<string>)>): (fd: Actions.FormData)
    ensures |fd| <= |es|
  {
    if es == [] then []
    else
      var last := es[|es| - 1];
      var init := es[..|es| - 1];
      assert es == init + [last];
      TruthyEntries(init) + (if Present(last.1).Some? then [(last.0, last.1.value)] else [])
  }

  /** The filter keeps exactly the entries whose value is a non-empty string. */
  lemma {:induction false} TruthyEntriesKeep(es: seq<(string, Option<string>)>)
    ensures forall e :: e in TruthyEntries(es) <==> e.1 != "" && (e.0, Some(e.1)) in es
  {
    if es != [] {
      var init := es[..|es| - 1];
      TruthyEntriesKeep(init);
      assert es == init + [es[|es| - 1]];
    }
  }

  /** `onSubmit`'s `forEach` loop building the FormData handed to `addProject`. */
  method BuildFormData(v: Values) returns (fd: Actions.FormData)
    ensures fd == TruthyEntries(Entries(v))
  {
    var es := Entries(v);
    fd := [];
    var i := 0;
    while i < |es|
      invariant 0 <= i <= |es|
      invariant fd == TruthyEntries(es[..i])
    {
      var (key, value) := es[i];
      if value.Some? && value.value != "" {
        fd := fd + [(key, value.value)];
      }
      assert es[..i + 1][..i] == es[..i];
      i := i + 1;
    }
    assert es[..i] == es;
  }

  /** When the names are distinct, `get` on the filtered FormData finds a field exactly when it was non-empty. */
  lemma {:induction false} GetAfterFilter(es: seq<(string, Option<string>)>, i: nat)
    requires forall j, m :: 0 <= j < m < |es| ==> es[j].0 != es[m].0
    requires i < |es|
    ensures Actions.FormGet(TruthyEntries(es), es[i].0) == Present(es[i].1)
  {
    var n := |es| - 1;
    var init := es[..n];
    var key := es[i].0;
    var tail := if Present(es[n].1).Some? then [(es[n].0, es[n].1.value)] else [];
    assert TruthyEntries(es) == TruthyEntries(init) + tail;
    Actions.FormGetAppend(TruthyEntries(init), tail, key);
    if i < n {
      GetAfterFilter(init, i);
    } else {
      TruthyEntriesKeep(init);
      forall e | e in TruthyEntries(init) ensures e.0 != key {
        var j :| 0 <= j < |init| && init[j] == (e.0, Some(e.1));
      }
    }
  }

  /** Each field `addProject` reads from the filtered FormData is the submitted value if non-empty, and `null` otherwise. */
  lemma {:induction false} FieldsAfterFilter(v: Values)
    ensures var fd := TruthyEntries(Entries(v));
            && Actions.FormGet(fd, "title") == Present(Some(v.title))
            && Actions.FormGet(fd, "description") == Present(Some(v.description))
            && Actions.FormGet(fd, "image") == Present(Some(v.image))
            && Actions.FormGet(fd, "tags") == Present(Some(v.tags))
            && Actions.FormGet(fd, "demoUrl") == Present(v.demoUrl)
            && Actions.FormGet(fd, "githubUrl") == Present(v.githubUrl)
            && Actions.FormGet(fd, "category") == Present(Some(v.category))
  {
    var es := Entries(v);
    EntryNamesDistinct(v);
    GetAfterFilter(es, 0);
    GetAfterFilter(es, 1);
    GetAfterFilter(es, 3);
    GetAfterFilter(es, 4);
    GetAfterFilter(es, 5);
    GetAfterFilter(es, 6);
    GetAfterFilter(es, 7);
  }

  /**
   * Any values the schema accepts reach `addProject` with a "tags" field, so with
   * a session the project is added; fields left empty arrive as `null`.
   */
  lemma {:induction false} AcceptedValuesAreAdded(v: Values, isUrl: string -> bool, s: Actions.Session)
    requires Accepts(v, isUrl)
    requires !isUrl("")
    ensures var o := Actions.Perform(Actions.AddProject(TruthyEntries(Entries(v))), Some(s));
            && o.result == Actions.Success
            && o.revalidated == {"/admin/projects", "/"}
            && o.logged == [Actions.ProjectAdded(Actions.ProjectDraft(
                 Some(v.title), Some(v.description), Present(Some(v.category)), Some(v.image),
                 Present(v.demoUrl), Present(v.githubUrl), Actions.ParseTags(v.tags)))]
  {
    var fd := TruthyEntries(Entries(v));
    FieldsAfterFilter(v);
    assert v.title != [] && v.description != [] && v.image != [] && v.tags != [];
    var draft := Actions.ProjectDraft(
      Some(v.title), Some(v.description), Present(Some(v.category)), Some(v.image),
      Present(v.demoUrl), Present(v.githubUrl), Actions.ParseTags(v.tags));
    assert Actions.ReadProject(fd) == Some(draft);
    Actions.AddProjectReadsForm(fd, s, draft);
  }

  /** The schema's keys are pairwise distinct. */
  lemma {:induction false} EntryNamesDistinct(v: Values)
    ensures forall j, m :: 0 <= j < m < |Entries(v)| ==> Entries(v)[j].0 != Entries(v)[m].0
  {
    var es := Entries(v);
    forall j, m | 0 <= j < m < |es| ensures es[j].0 != es[m].0 {
      assert |es[j].0| != |es[m].0| || es[j].0[0] != es[m].0[0];
    }
  }

  const AddedToast := Toast("Project added", "Your project has been added successfully.", false)
  const AddFailedToast := Toast("Something went wrong.", "Your project couldn't be added. Please try again.", true)
  const DeletedToast := Toast("Project deleted", "Your project has been deleted successfully.", false)
  const DeleteFailedToast := Toast("Something went wrong.", "Your project couldn't be deleted. Please try again.", true)

  /** `ProjectsList`'s React state and the steps it has taken. */
  class ProjectsListView {
    var isDialogOpen: bool
    var isSubmitting: bool
    var isDeleting: Option<string>
    var values: Values
    var steps: seq<Step>

    constructor()
      ensures !isDialogOpen && !isSubmitting && isDeleting == None && values == Defaults && steps == []
    {
      isDialogOpen := false;
      isSubmitting := false;
      isDeleting := None;
      values := Defaults;
      steps := [];
    }

    /** `onSubmit(values)`: the flag is raised around the call; success resets the form and closes the dialog. */
    method OnSubmit(server: Actions.Server, session: Option<Actions.Session>, v: Values)
      modifies this, server
      ensures var call := Actions.AddProject(TruthyEntries(Entries(v)));
              var o := Actions.Perform(call, session);
              && server.log == old(server.log) + o.logged
              && server.revalidated == old(server.revalidated) + o.revalidated
              && !isSubmitting && isDeleting == old(isDeleting)
              && (o.result.Success? ==>
                    && values == Defaults && !isDialogOpen
                    && steps == old(steps) + [SubmittingSet(true), Called(call), Toasted(AddedToast),
                                              FormReset, DialogOpenSet(false), SubmittingSet(false)])
              && (o.result.Thrown? ==>
                    && values == old(values) && isDialogOpen == old(isDialogOpen)
                    && steps == old(steps) + [SubmittingSet(true), Called(call), Toasted(AddFailedToast),
                                              SubmittingSet(false)])
    {
      var fd := BuildFormData(v);
      Send(server, session, fd);
    }

    /** The part of `onSubmit` after the FormData is built. */
    method Send(server: Actions.Server, session: Option<Actions.Session>, fd: Actions.FormData)
      modifies this, server
      ensures var call := Actions.AddProject(fd);
              var o := Actions.Perform(call, session);
              && server.log == old(server.log) + o.logged
              && server.revalidated == old(server.revalidated) + o.revalidated
              && !isSubmitting && isDeleting == old(isDeleting)
              && (o.result.Success? ==>
                    && values == Defaults && !isDialogOpen
                    && steps == old(steps) + [SubmittingSet(true), Called(call), Toasted(AddedToast),
                                              FormReset, DialogOpenSet(false), SubmittingSet(false)])
              && (o.result.Thrown? ==>
                    && values == old(values) && isDialogOpen == old(isDialogOpen)
                    && steps == old(steps) + [SubmittingSet(true), Called(call), Toasted(AddFailedToast),
                                              SubmittingSet(false)])
    {
      isSubmitting := true;
      var call := Actions.AddProject(fd);
      var r := server.AddProject(session, fd);
      if r.Success? {
        values := Defaults;
        isDialogOpen := false;
        steps := steps + [SubmittingSet(true), Called(call), Toasted(AddedToast), FormReset, DialogOpenSet(false)];
      } else {
        steps := steps + [SubmittingSet(true), Called(call), Toasted(AddFailedToast)];
      }
      isSubmitting := false;
      steps := steps + [SubmittingSet(false)];
    }

    /** `handleDeleteProject(id)`: `isDeleting` holds the id during the call and is cleared afterwards. */
    method HandleDeleteProject(server: Actions.Server, session: Option<Actions.Session>, id: string)
      modifies this, server
      ensures var o := Actions.Perform(Actions.DeleteProject(id), session);
              && server.log == old(server.log) + o.logged
              && server.revalidated == old(server.revalidated) + o.revalidated
              && isDeleting == None
              && isSubmitting == old(isSubmitting) && isDialogOpen == old(isDialogOpen) && values == old(values)
              && steps == old(steps) + [DeletingSet(Some(id)), Called(Actions.DeleteProject(id)),
                                        Toasted(if o.result.Success? then DeletedToast else DeleteFailedToast),
                                        DeletingSet(None)]
    {
      isDeleting := Some(id);
      var r := server.DeleteProject(session, id);
      if r.Success? {
        steps := steps + [DeletingSet(Some(id)), Called(Actions.DeleteProject(id)), Toasted(DeletedToast)];
      } else {
        steps := steps + [DeletingSet(Some(id)), Called(Actions.DeleteProject(id)), Toasted(DeleteFailedToast)];
      }
      isDeleting := None;
      steps := steps + [DeletingSet(None)];
    }
  }

  /** `toUpperCase` on one character, for the ASCII letters. */
  function UpperAscii(c: char): char {
    if 'a' <= c <= 'z' then (c as int - 32) as char else c
  }

  /** `category.charAt(0).toUpperCase() + category.slice(1)`. */
  function CategoryLabel(category: string): (shown: string)
    ensures |shown| == |category|
    ensures forall i :: 1 <= i < |shown| ==> shown[i] == category[i]
    ensures shown != [] ==> !('a' <= shown[0] <= 'z')
    ensures shown != [] && !('a' <= category[0] <= 'z') ==> shown == category
    ensures category != [] && 'a' <= category[0] <= 'z' ==>
              'A' <= shown[0] <= 'Z' && shown[0] as int - 'A' as int == category[0] as int - 'a' as int
  {
    if category == [] then "" else [UpperAscii(category[0])] + category[1..]
  }

  /** Labelling a label again changes nothing. */
  lemma {:induction false} CategoryLabelIdempotent(category: string)
    ensures CategoryLabel(CategoryLabel(category)) == CategoryLabel(category)
  {
  }
}
