// The server actions: the contact action, and the five admin mutations that
// each check the session before anything else, log the intended change,
// invalidate cached pages and answer `{ success: true }`. The portfolio
// document itself is never written.
module Actions {
  import opened Wrappers
  import opened JsString

  /** What `auth()` returns when a session exists; its content is left abstract. */
  datatype Session = Session(user: string)

  /** A `FormData`: its entries as (name, value) pairs in the order they were appended. */
  type FormData = seq<(string, string)>

  /** `formData.get(key)`: the value of the first entry with this name, or `null`. */
  function FormGet(fd: FormData, key: string): (r: Option<string>)
    ensures r.None? <==> forall i :: 0 <= i < |fd| ==> fd[i].0 != key
    ensures r.Some? ==> exists i :: 0 <= i < |fd| && fd[i] == (key, r.value)
                                    && forall j :: 0 <= j < i ==> fd[j].0 != key
  {
    if fd == [] then None
    else if fd[0].0 == key then Some(fd[0].1)
    else
      var r := FormGet(fd[1..], key);
      assert forall i :: 1 <= i < |fd| ==> fd[i] == fd[1..][i - 1];
      r
  }

  /** Looking a name up in two lists of entries appended one after the other. */
  lemma {:induction false} FormGetAppend(a: FormData, b: FormData, key: string)
    ensures FormGet(a + b, key) == if FormGet(a, key).Some? then FormGet(a, key) else FormGet(b, key)
  {
    if a == [] {
      assert a + b == b;
    } else {
      assert (a + b)[0] == a[0];
      if a[0].0 != key {
        FormGetAppend(a[1..], b, key);
        assert (a + b)[1..] == a[1..] + b;
      }
    }
  }

  // The payloads the admin forms hand to `updatePortfolioSection`, one per section.
  datatype AboutValues = AboutValues(name: string, tagline: string, profileImage: string, about: string)
  datatype SocialValues = SocialValues(github: Option<string>, linkedin: Option<string>, twitter: Option<string>, email: string)
  datatype TechItemValues = TechItemValues(name: string, icon: string)
  datatype CategoryValues = CategoryValues(category: string, items: seq<TechItemValues>)
  datatype SectionData =
    | AboutSection(about: AboutValues)
    | SocialLinksSection(links: SocialValues)
    | TechStackSection(techStack: seq<CategoryValues>)

  /** The project `addProject` reads out of its form; absent fields are `null`. */
  datatype ProjectDraft = ProjectDraft(
    title: Option<string>,
    description: Option<string>,
    category: Option<string>,
    image: Option<string>,
    demoUrl: Option<string>,
    githubUrl: Option<string>,
    tags: seq<string>)

  /** What an action writes with `console.log`. */
  datatype LogEntry =
    | ContactSubmission(name: string, email: string, message: string)
    | SectionUpdate(section: string, data: SectionData)
    | ProjectAdded(project: ProjectDraft)
    | ProjectDeleted(id: string)
    | AchievementAdded(title: Option<string>, date: Option<string>, description: Option<string>)
    | AchievementDeleted(id: string)

  /** `Error("Unauthorized")`, or the `TypeError` of calling `split` on a missing "tags" field. */
  datatype ActionError = Unauthorized | NullSplit

  /** `{ success: true }`, or the error the action throws. */
  datatype ActionResult = Success | Thrown(error: ActionError)

  datatype Call =
    | SendContactForm(name: string, email: string, message: string)
    | UpdatePortfolioSection(section: string, data: SectionData)
    | AddProject(form: FormData)
    | DeleteProject(id: string)
    | AddAchievement(form: FormData)
    | DeleteAchievement(id: string)
  {
    /** Every action except the contact form is an admin mutation behind the session check. */
    predicate RequiresSession() {
      !SendContactForm?
    }
  }

  /** The result, the log lines written and the paths passed to `revalidatePath`. */
  datatype Outcome = Outcome(result: ActionResult, logged: seq<LogEntry>, revalidated: set<string>)

  /** The cached pages a successful call invalidates. */
  function Invalidates(c: Call): (paths: set<string>)
    ensures "/" in paths <==> c.RequiresSession()
    ensures paths <= {"/", "/admin", "/admin/projects", "/admin/achievements"}
  {
    match c
    case SendContactForm(_, _, _) => {}
    case UpdatePortfolioSection(_, _) => {"/", "/admin"}
    case AddProject(_) => {"/admin/projects", "/"}
    case DeleteProject(_) => {"/admin/projects", "/"}
    case AddAchievement(_) => {"/admin/achievements", "/"}
    case DeleteAchievement(_) => {"/admin/achievements", "/"}
  }

  /** `formData.get("tags").split(",").map(tag => tag.trim())`. */
  function ParseTags(tags: string): (r: seq<string>)
    ensures |r| == Count(tags, ',') + 1
    ensures forall i :: 0 <= i < |r| ==> r[i] == Trim(Split(tags, ',')[i])
  {
    TrimAll(Split(tags, ','))
  }

  /** Tags written as a comma-separated list of comma-free names are read back as those names, each trimmed. */
  lemma {:induction false} ParseTagsOfJoin(names: seq<string>)
    requires |names| >= 1
    requires forall i :: 0 <= i < |names| ==> ',' !in names[i]
    ensures ParseTags(Join(names, ',')) == TrimAll(names)
  {
    SplitJoin(names, ',');
  }

  /** A list written with already-trimmed names reads back exactly. */
  lemma {:induction false} ParseTagsOfTrimmedJoin(names: seq<string>)
    requires |names| >= 1
    requires forall i :: 0 <= i < |names| ==> ',' !in names[i] && Trim(names[i]) == names[i]
    ensures ParseTags(Join(names, ',')) == names
  {
    ParseTagsOfJoin(names);
  }

  /** A blank piece between two commas is not dropped: it is read as an empty tag in its place, as in `"a, ,b"`. */
  lemma {:induction false} ParseTagsKeepsEmptyPieces(names: seq<string>, k: nat)
    requires k < |names|
    requires forall i :: 0 <= i < |names| ==> ',' !in names[i]
    requires forall j :: 0 <= j < |names[k]| ==> IsTrimmable(names[k][j])
    ensures |ParseTags(Join(names, ','))| == |names|
    ensures ParseTags(Join(names, ','))[k] == ""
  {
    ParseTagsOfJoin(names);
    TrimOfBlank(names[k]);
  }

  /** What `addProject` reads out of its form once the session check has passed. */
  function ReadProject(form: FormData): (r: Option<ProjectDraft>)
    ensures r.None? <==> FormGet(form, "tags").None?
    ensures r.Some? ==> r.value.tags == ParseTags(FormGet(form, "tags").value)
  {
    match FormGet(form, "tags")
    case None => None
    case Some(tags) =>
      Some(ProjectDraft(
        FormGet(form, "title"), FormGet(form, "description"), FormGet(form, "category"),
        FormGet(form, "image"), FormGet(form, "demoUrl"), FormGet(form, "githubUrl"),
        ParseTags(tags)))
  }

  /** `addProject` with a session and a readable "tags" field adds exactly the project read from the form. */
  lemma AddProjectReadsForm(form: FormData, s: Session, draft: ProjectDraft)
    requires ReadProject(form) == Some(draft)
    ensures Perform(AddProject(form), Some(s)) == Outcome(Success, [ProjectAdded(draft)], {"/admin/projects", "/"})
  {
  }

  /** One call of an action, given what `auth()` returns for it. */
  function Perform(c: Call, session: Option<Session>): (o: Outcome)
    ensures c.RequiresSession() && session.None? ==> o == Outcome(Thrown(Unauthorized), [], {})
    ensures !c.RequiresSession() ==> o.result == Success
    ensures o.result == Thrown(NullSplit) <==> c.AddProject? && session.Some? && FormGet(c.form, "tags").None?
    ensures o.result.Success? ==> o.revalidated == Invalidates(c) && |o.logged| == 1
    ensures o.result.Thrown? ==> o.revalidated == {} && o.logged == []
  {
    if c.RequiresSession() && session.None? then
      Outcome(Thrown(Unauthorized), [], {})
    else
      match c
      case SendContactForm(name, email, message) =>
        Outcome(Success, [ContactSubmission(name, email, message)], {})
      case UpdatePortfolioSection(section, data) =>
        Outcome(Success, [SectionUpdate(section, data)], {"/", "/admin"})
      case AddProject(form) =>
        (match ReadProject(form)
         case None => Outcome(Thrown(NullSplit), [], {})
         case Some(p) => Outcome(Success, [ProjectAdded(p)], {"/admin/projects", "/"}))
      case DeleteProject(id) =>
        Outcome(Success, [ProjectDeleted(id)], {"/admin/projects", "/"})
      case AddAchievement(form) =>
        Outcome(Success, [AchievementAdded(FormGet(form, "title"), FormGet(form, "date"), FormGet(form, "description"))],
                {"/admin/achievements", "/"})
      case DeleteAchievement(id) =>
        Outcome(Success, [AchievementDeleted(id)], {"/admin/achievements", "/"})
  }

  /** With a session every admin action answers `{ success: true }`, except `addProject` without a "tags" field. */
  lemma AdminActionSucceedsWithSession(c: Call, s: Session)
    requires c.RequiresSession()
    requires c.AddProject? ==> FormGet(c.form, "tags").Some?
    ensures Perform(c, Some(s)).result == Success
    ensures Perform(c, Some(s)).revalidated == Invalidates(c)
  {
  }

  /** `sendContactForm` needs no session and always succeeds, logging the submission and invalidating nothing. */
  lemma ContactFormAlwaysSucceeds(name: string, email: string, message: string, session: Option<Session>)
    ensures Perform(SendContactForm(name, email, message), session)
         == Outcome(Success, [ContactSubmission(name, email, message)], {})
  {
  }

  /** The server's observable state: the pages invalidated so far and the log written so far. */
  class Server {
    var revalidated: set<string>
    var log: seq<LogEntry>

    constructor()
      ensures revalidated == {} && log == []
    {
      revalidated := {};
      log := [];
    }

    method SendContactForm(name: string, email: string, message: string) returns (r: ActionResult)
      modifies this
      ensures var o := Perform(Call.SendContactForm(name, email, message), None);
              r == o.result && log == old(log) + o.logged && revalidated == old(revalidated) + o.revalidated
    {
      log := log + [ContactSubmission(name, email, message)];
      r := Success;
    }

    method UpdatePortfolioSection(session: Option<Session>, section: string, data: SectionData) returns (r: ActionResult)
      modifies this
      ensures var o := Perform(Call.UpdatePortfolioSection(section, data), session);
              r == o.result && log == old(log) + o.logged && revalidated == old(revalidated) + o.revalidated
    {
      if session.None? {
        return Thrown(Unauthorized);
      }
      log := log + [SectionUpdate(section, data)];
      revalidated := revalidated + {"/"};
      revalidated := revalidated + {"/admin"};
      r := Success;
    }

    method AddProject(session: Option<Session>, form: FormData) returns (r: ActionResult)
      modifies this
      ensures var o := Perform(Call.AddProject(form), session);
              r == o.result && log == old(log) + o.logged && revalidated == old(revalidated) + o.revalidated
    {
      if session.None? {
        return Thrown(Unauthorized);
      }
      var draft := ReadProject(form);
      assert Perform(Call.AddProject(form), session)
          == if draft.None? then Outcome(Thrown(NullSplit), [], {})
             else Outcome(Success, [ProjectAdded(draft.value)], {"/admin/projects", "/"});
      if draft.None? {
        return Thrown(NullSplit);
      }
      log := log + [ProjectAdded(draft.value)];
      revalidated := revalidated + {"/admin/projects"};
      revalidated := revalidated + {"/"};
      r := Success;
    }

    method DeleteProject(session: Option<Session>, id: string) returns (r: ActionResult)
      modifies this
      ensures var o := Perform(Call.DeleteProject(id), session);
              r == o.result && log == old(log) + o.logged && revalidated == old(revalidated) + o.revalidated
    {
      if session.None? {
        return Thrown(Unauthorized);
      }
      log := log + [ProjectDeleted(id)];
      revalidated := revalidated + {"/admin/projects"};
      revalidated := revalidated + {"/"};
      r := Success;
    }

    method AddAchievement(session: Option<Session>, form: FormData) returns (r: ActionResult)
      modifies this
      ensures var o := Perform(Call.AddAchievement(form), session);
              r == o.result && log == old(log) + o.logged && revalidated == old(revalidated) + o.revalidated
    {
      if session.None? {
        return Thrown(Unauthorized);
      }
      var title := FormGet(form, "title");
      var date := FormGet(form, "date");
      var description := FormGet(form, "description");
      log := log + [AchievementAdded(title, date, description)];
      revalidated := revalidated + {"/admin/achievements"};
      revalidated := revalidated + {"/"};
      r := Success;
    }

    method DeleteAchievement(session: Option<Session>, id: string) returns (r: ActionResult)
      modifies this
      ensures var o := Perform(Call.DeleteAchievement(id), session);
              r == o.result && log == old(log) + o.logged && revalidated == old(revalidated) + o.revalidated
    {
      if session.None? {
        return Thrown(Unauthorized);
      }
      log := log + [AchievementDeleted(id)];
      revalidated := revalidated + {"/admin/achievements"};
      revalidated := revalidated + {"/"};
      r := Success;
    }
  }
}
