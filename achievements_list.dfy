// The admin achievement list: the "Add Achievement" dialog's schema, the
// FormData it builds for `addAchievement`, and the submit and delete flags.
module AchievementsList {
  import opened Wrappers
  import opened JsString
  import opened Actions
  import opened Ui

  datatype Values = Values(title: string, date: string, description: string)

  /** The dialog's default values, to which `form.reset()` returns. */
  const Defaults: Values := Values("", "", "")

  /** `formSchema`, with `.min(n)` counting UTF-16 code units. */
  function Accepts(v: Values): (ok: bool)
    ensures ok ==> v.title != [] && v.date != [] && |v.description| >= 5
  {
    Utf16Length(v.title) >= 2 && Utf16Length(v.date) >= 1 && Utf16Length(v.description) >= 10
  }

  /** The dialog as it opens, and as `form.reset()` leaves it, cannot be submitted. */
  lemma DefaultsRefused()
    ensures !Accepts(Defaults)
  {
  }

  /** `Object.entries(values)`. */
  function Entries(v: Values): seq<(string, string)> {
    [("title", v.title), ("date", v.date), ("description", v.description)]
  }

  /** `onSubmit`'s `forEach` loop: every entry is appended, empty or not. */
  method BuildFormData(v: Values) returns (fd: FormData)
    ensures fd == Entries(v)
  {
    var es := Entries(v);
    fd := [];
    var i := 0;
    while i < |es|
      invariant 0 <= i <= |es|
      invariant fd == es[..i]
    {
      var (key, value) := es[i];
      fd := fd + [(key, value)];
      i := i + 1;
    }
    assert es[..i] == es;
  }

  /** With a session, whatever the dialog submits is logged as one achievement carrying exactly its three values. */
  lemma SubmittedValuesAreLogged(v: Values, s: Session)
    ensures Perform(AddAchievement(Entries(v)), Some(s))
         == Outcome(Success, [AchievementAdded(Some(v.title), Some(v.date), Some(v.description))],
                    {"/admin/achievements", "/"})
  {
    var es := Entries(v);
    assert FormGet(es, "title") == Some(v.title);
    assert FormGet(es, "date") == Some(v.date) by {
      assert es[0].0 != "date";
    }
    assert FormGet(es, "description") == Some(v.description) by {
      var tail := [("description", v.description)];
      assert es[1..][1..] == tail;
      assert FormGet(tail, "description") == Some(v.description);
      assert es[1].0 != "description" by { assert |es[1].0| == 4; }
      assert FormGet(es[1..], "description") == FormGet(tail, "description");
      assert es[0].0 != "description" by { assert es[0].0[0] == 't'; }
    }
  }

  /** An achievement the dialog lets through is logged with a title, a date and a description of at least five characters. */
  lemma AcceptedValuesAreLogged(v: Values, s: Session)
    requires Accepts(v)
    ensures var o := Perform(AddAchievement(Entries(v)), Some(s));
            && o.result == Success
            && |o.logged| == 1 && o.logged[0].AchievementAdded?
            && o.logged[0].title.Some? && o.logged[0].title.value != []
            && o.logged[0].date.Some? && o.logged[0].date.value != []
            && o.logged[0].description.Some? && |o.logged[0].description.value| >= 5
  {
    SubmittedValuesAreLogged(v, s);
  }

  const AddedToast := Toast("Achievement added", "Your achievement has been added successfully.", false)
  const AddFailedToast := Toast("Something went wrong.", "Your achievement couldn't be added. Please try again.", true)
  const DeletedToast := Toast("Achievement deleted", "Your achievement has been deleted successfully.", false)
  const DeleteFailedToast := Toast("Something went wrong.", "Your achievement couldn't be deleted. Please try again.", true)

  /** `AchievementsList`'s React state and the steps it has taken. */
  class AchievementsListView {
    var isDialogOpen: bool
    var isSubmitting: bool
    var isDeleting: Option<string>
    var values: Values
    var steps: seq<Step>

    constructor()
      ensures !isDialogOpen && !isSubmitting && isDeleting == None && values == Defaults && steps == []
    {
      isDialogOpen := false;
      isSubmitting := false;
      isDeleting := None;
      values := Defaults;
      steps := [];
    }

    /** `onSubmit(values)`: success resets the form and closes the dialog; failure leaves both as they were. */
    method OnSubmit(server: Server, session: Option<Session>, v: Values)
      modifies this, server
      ensures var o := Perform(AddAchievement(Entries(v)), session);
              && server.log == old(server.log) + o.logged
              && server.revalidated == old(server.revalidated) + o.revalidated
              && !isSubmitting && isDeleting == old(isDeleting)
              && (o.result.Success? ==>
                    && values == Defaults && !isDialogOpen
                    && steps == old(steps) + [SubmittingSet(true), Called(AddAchievement(Entries(v))), Toasted(AddedToast),
                                              FormReset, DialogOpenSet(false), SubmittingSet(false)])
              && (o.result.Thrown? ==>
                    && values == old(values) && isDialogOpen == old(isDialogOpen)
                    && steps == old(steps) + [SubmittingSet(true), Called(AddAchievement(Entries(v))), Toasted(AddFailedToast),
                                              SubmittingSet(false)])
    {
      isSubmitting := true;
      var fd := BuildFormData(v);
      var r := server.AddAchievement(session, fd);
      if r.Success? {
        values := Defaults;
        isDialogOpen := false;
        steps := steps + [SubmittingSet(true), Called(AddAchievement(fd)), Toasted(AddedToast), FormReset, DialogOpenSet(false)];
      } else {
        steps := steps + [SubmittingSet(true), Called(AddAchievement(fd)), Toasted(AddFailedToast)];
      }
      isSubmitting := false;
      steps := steps + [SubmittingSet(false)];
    }

    /** `handleDeleteAchievement(id)`: `isDeleting` holds the id during the call and is reset to null afterwards. */
    method HandleDeleteAchievement(server: Server, session: Option<Session>, id: string)
      modifies this, server
      ensures var o := Perform(DeleteAchievement(id), session);
              && server.log == old(server.log) + o.logged
              && server.revalidated == old(server.revalidated) + o.revalidated
              && isDeleting == None
              && isSubmitting == old(isSubmitting) && isDialogOpen == old(isDialogOpen) && values == old(values)
              && steps == old(steps) + [DeletingSet(Some(id)), Called(DeleteAchievement(id)),
                                        Toasted(if o.result.Success? then DeletedToast else DeleteFailedToast),
                                        DeletingSet(None)]
    {
      isDeleting := Some(id);
      var r := server.DeleteAchievement(session, id);
      if r.Success? {
        steps := steps + [DeletingSet(Some(id)), Called(DeleteAchievement(id)), Toasted(DeletedToast)];
      } else {
        steps := steps + [DeletingSet(Some(id)), Called(DeleteAchievement(id)), Toasted(DeleteFailedToast)];
      }
      isDeleting := None;
      steps := steps + [DeletingSet(None)];
    }
  }
}
