// The admin contact settings: the social-link schema, the defaults taken
// from the document, and the submission of the "socialLinks" section.
module ContactSettings {
  import opened Wrappers
  import opened Actions
  import opened Ui
  import Portfolio

  /** `formSchema`; `isUrl` and `isEmail` stand for zod's URL and e-mail recognisers. */
  function Accepts(v: SocialValues, isUrl: string -> bool, isEmail: string -> bool): (ok: bool)
    ensures (v.github.None? || v.github == Some(""))
            && (v.linkedin.None? || v.linkedin == Some(""))
            && (v.twitter.None? || v.twitter == Some(""))
            ==> (ok <==> isEmail(v.email))
  {
    && OptionalUrl(v.github, isUrl)
    && OptionalUrl(v.linkedin, isUrl)
    && OptionalUrl(v.twitter, isUrl)
    && isEmail(v.email)
  }

  /** `defaultValues`: each stored link, or `""` where the document has none (`link || ""`). */
  function DefaultValues(links: Portfolio.SocialLinks): SocialValues {
    SocialValues(Some(links.github.GetOr("")), Some(links.linkedin.GetOr("")),
                 Some(links.twitter.GetOr("")), links.email.GetOr(""))
  }

  /** The form always opens with a string in every field; it is empty exactly when the document has no such link or an empty one, and is the stored link otherwise. */
  lemma DefaultsMirrorLinks(links: Portfolio.SocialLinks)
    ensures var v := DefaultValues(links);
            && v.github.Some? && v.linkedin.Some? && v.twitter.Some?
            && (v.github.value == "" <==> links.github.None? || links.github.value == "")
            && (v.linkedin.value == "" <==> links.linkedin.None? || links.linkedin.value == "")
            && (v.twitter.value == "" <==> links.twitter.None? || links.twitter.value == "")
            && (v.email == "" <==> links.email.None? || links.email.value == "")
            && (v.github.value != "" ==> links.github == v.github)
            && (v.linkedin.value != "" ==> links.linkedin == v.linkedin)
            && (v.twitter.value != "" ==> links.twitter == v.twitter)
            && (v.email != "" ==> links.email == Some(v.email))
  {
  }

  /** A document whose links are URLs and whose e-mail is an address opens a form that can be saved unchanged. */
  lemma DefaultsAcceptedWhenLinksValid(links: Portfolio.SocialLinks, isUrl: string -> bool, isEmail: string -> bool)
    requires OptionalUrl(links.github, isUrl) && OptionalUrl(links.linkedin, isUrl) && OptionalUrl(links.twitter, isUrl)
    requires links.email.Some? && isEmail(links.email.value)
    ensures Accepts(DefaultValues(links), isUrl, isEmail)
  {
  }

  /** A document without an e-mail address opens a form that cannot be saved until one is typed in. */
  lemma MissingEmailBlocksSave(links: Portfolio.SocialLinks, isUrl: string -> bool, isEmail: string -> bool)
    requires links.email.None? && !isEmail("")
    ensures !Accepts(DefaultValues(links), isUrl, isEmail)
  {
  }

  /** The seeded document has no Twitter link, so the form opens with an empty Twitter field, and it can be saved as it is. */
  lemma SeedDefaults(isUrl: string -> bool, isEmail: string -> bool)
    requires isUrl(Portfolio.GetPortfolioData().socialLinks.github.value)
    requires isUrl(Portfolio.GetPortfolioData().socialLinks.linkedin.value)
    requires isEmail(Portfolio.GetPortfolioData().socialLinks.email.value)
    ensures DefaultValues(Portfolio.GetPortfolioData().socialLinks).twitter == Some("")
    ensures Accepts(DefaultValues(Portfolio.GetPortfolioData().socialLinks), isUrl, isEmail)
  {
    var links := Portfolio.GetPortfolioData().socialLinks;
    assert links.twitter.None? && links.github.Some? && links.linkedin.Some? && links.email.Some?;
    DefaultsAcceptedWhenLinksValid(links, isUrl, isEmail);
  }

  const UpdatedToast := Toast("Contact information updated", "Your contact information has been updated successfully.", false)
  const FailedToast := Toast("Something went wrong.", "Your contact information couldn't be updated. Please try again.", true)

  /** `ContactSettings`'s state: the submit flag, the defaults it was opened with, and its steps. */
  class ContactSettingsView {
    var isSubmitting: bool
    const defaults: SocialValues
    var steps: seq<Step>

    constructor(data: Portfolio.PortfolioData)
      ensures !isSubmitting && defaults == DefaultValues(data.socialLinks) && steps == []
    {
      isSubmitting := false;
      defaults := DefaultValues(data.socialLinks);
      steps := [];
    }

    /** `onSubmit(values)`: updates section "socialLinks" with the values; the flag is cleared on success and failure alike. */
    method OnSubmit(server: Server, session: Option<Session>, v: SocialValues)
      modifies this, server
      ensures var call := UpdatePortfolioSection("socialLinks", SocialLinksSection(v));
              var o := Perform(call, session);
              && server.log == old(server.log) + o.logged
              && server.revalidated == old(server.revalidated) + o.revalidated
              && !isSubmitting
              && steps == old(steps) + [SubmittingSet(true), Called(call),
                                        Toasted(if o.result.Success? then UpdatedToast else FailedToast),
                                        SubmittingSet(false)]
    {
      isSubmitting := true;
      var call := UpdatePortfolioSection("socialLinks", SocialLinksSection(v));
      var r := server.UpdatePortfolioSection(session, "socialLinks", SocialLinksSection(v));
      if r.Success? {
        steps := steps + [SubmittingSet(true), Called(call), Toasted(UpdatedToast)];
      } else {
        steps := steps + [SubmittingSet(true), Called(call), Toasted(FailedToast)];
      }
      isSubmitting := false;
      steps := steps + [SubmittingSet(false)];
    }
  }
}
