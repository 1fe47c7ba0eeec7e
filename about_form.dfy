// The admin "About Me" form: its schema, its defaults taken from the
// document, and its submission of the "about" section.
module AboutForm {
  import opened Wrappers
  import opened JsString
  import opened Actions
  import opened Ui
  import Portfolio

  /** `formSchema`; `isUrl` stands for zod's URL recogniser and `.min(n)` counts UTF-16 code units. */
  function Accepts(v: AboutValues, isUrl: string -> bool): (ok: bool)
    ensures ok ==> |v.name| >= 1 && |v.tagline| >= 5 && |v.about| >= 25
  {
    && Utf16Length(v.name) >= 2
    && Utf16Length(v.tagline) >= 10
    && isUrl(v.profileImage)
    && Utf16Length(v.about) >= 50
  }

  /** `defaultValues`: the document's current name, tagline, profile image and about text. */
  function DefaultValues(data: Portfolio.PortfolioData): AboutValues {
    AboutValues(data.name, data.tagline, data.profileImage, data.about)
  }

  /** The form opens on the seeded document in a state its own schema accepts, given that the seeded image address is a URL. */
  lemma SeedDefaultsAccepted(isUrl: string -> bool)
    requires isUrl(Portfolio.GetPortfolioData().profileImage)
    ensures Accepts(DefaultValues(Portfolio.GetPortfolioData()), isUrl)
  {
    var d := Portfolio.GetPortfolioData();
    assert |d.name| >= 2 && |d.tagline| >= 10 && |d.about| >= 50;
  }

  const UpdatedToast := Toast("Profile updated", "Your profile information has been updated successfully.", false)
  const FailedToast := Toast("Something went wrong.", "Your profile information couldn't be updated. Please try again.", true)

  /** `AboutForm`'s state: the submit flag, the defaults it was opened with, and its steps. */
  class AboutFormView {
    var isSubmitting: bool
    const defaults: AboutValues
    var steps: seq<Step>

    constructor(data: Portfolio.PortfolioData)
      ensures !isSubmitting && defaults == DefaultValues(data) && steps == []
    {
      isSubmitting := false;
      defaults := DefaultValues(data);
      steps := [];
    }

    /** `onSubmit(values)`: updates section "about" with the values; the flag is cleared on success and failure alike. */
    method OnSubmit(server: Server, session: Option<Session>, v: AboutValues)
      modifies this, server
      ensures var call := UpdatePortfolioSection("about", AboutSection(v));
              var o := Perform(call, session);
              && server.log == old(server.log) + o.logged
              && server.revalidated == old(server.revalidated) + o.revalidated
              && !isSubmitting
              && steps == old(steps) + [SubmittingSet(true), Called(call),
                                        Toasted(if o.result.Success? then UpdatedToast else FailedToast),
                                        SubmittingSet(false)]
    {
      isSubmitting := true;
      var call := UpdatePortfolioSection("about", AboutSection(v));
      var r := server.UpdatePortfolioSection(session, "about", AboutSection(v));
      if r.Success? {
        steps := steps + [SubmittingSet(true), Called(call), Toasted(UpdatedToast)];
      } else {
        steps := steps + [SubmittingSet(true), Called(call), Toasted(FailedToast)];
      }
      isSubmitting := false;
      steps := steps + [SubmittingSet(false)];
    }
  }
}
