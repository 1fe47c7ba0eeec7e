# Portfolio site: route guard, server actions, content store and admin forms

This project models the decision logic of a personal portfolio site built with
Next.js. The site has a public page and a password-protected admin dashboard.
The model covers:

- the admin route guard (`middleware.ts`), including the `config.matcher`
  that decides which requests reach it;
- the server actions (`lib/actions.ts`). Each admin mutation checks the
  session before anything else, logs the change it would make and
  invalidates a fixed set of cached pages. None of them changes the document;
- the content store (`lib/portfolio.ts`): a constant seeded document and the
  two lookups by identifier;
- the contact endpoint (`app/api/contact/route.ts`), which picks one status
  out of 405, 400, 200 and 500;
- the admin forms and the login page: their zod schemas, the defaults they
  open with, the payload they hand to the actions, and their submit, delete,
  dialog and loading flags.

How the pieces are modelled:

- **Sessions.** A session is an abstract value wrapped in `Option`. It stands
  for what `getToken` or `auth()` returns.
- **Validators.** zod's URL and e-mail recognisers are function parameters
  (`isUrl`, `isEmail`). `.min(n)` counts UTF-16 code units, as JavaScript
  string length does.
- **String builtins.** `trim` removes exactly the ECMAScript WhiteSpace and
  LineTerminator characters. `split` on a one-character separator keeps empty
  pieces.
- **Actions.** Each action is a pure function, `Actions.Perform`, giving the
  result, the log lines and the invalidated paths of one call. The class
  `Actions.Server` holds the log and the invalidated-path set; its methods are
  proved to add exactly what `Perform` says.
- **Forms.** Each form is a class holding its React state and a trace of
  steps: state updates, action calls, sign-in requests, toasts, form resets
  and router navigation.

Four behaviours of the code that a reader might not expect, all modelled as
the code has them:

- **Login navigation.** The login page navigates to `/admin` whenever
  `signIn` resolves without a truthy `error`. That includes a result of
  `undefined` and an empty error string. A failed login shows a toast, not an
  inline error.
- **Section names.** `updatePortfolioSection` accepts any section name, not
  only "about", "socialLinks" and "techStack".
- **Exempt paths.** `"/administrator"` starts with the admin prefix, so the
  middleware itself would redirect it. The matcher never hands it to the
  middleware, so it is not guarded at all.
- **Dropped project field.** The long description typed into the project
  dialog reaches `addProject`, but `addProject` never reads it.

## Model

| member | source | states |
|---|---|---|
| Middleware.Run | middleware.ts:5-24 | the token is read exactly when the path is not exempt; the answer is a redirect exactly when the path is guarded and there is no token; every redirect goes to /admin/login |
| Middleware.NonAdminPassesThrough | middleware.ts:8-11 | a path outside "/admin" passes through without the token being read, whatever the session |
| Middleware.LoginAlwaysReachable | middleware.ts:9-10 | "/admin/login" passes through with or without a session |
| Middleware.GuardedWithoutSessionRedirects | middleware.ts:13-21 | an admin path other than the login page, without a session, is redirected to the login page |
| Middleware.SessionNeverRedirected | middleware.ts:19-23 | with a session no path is redirected |
| Middleware.NoRedirectLoop | middleware.ts:9-20 | the redirect target is exempt, so following a redirect never redirects again |
| Middleware.ExemptionIsExact | middleware.ts:9 | "/admin/login/about", "/administrator" and "/admin" are guarded like any admin path |
| Middleware.HandleRequest | middleware.ts:26-28 | with the matcher in front, a request is redirected exactly when the matcher selects it, it is not the login page and there is no session |
| Middleware.MatcherNarrowsGuard | middleware.ts:26-28 | "/administrator" would be redirected by the middleware but the matcher never sends it there |
| Middleware.MatcherSelects | middleware.ts:26-28 | the matcher "/admin/:path*" selects "/admin" or a path under "/admin/"; every path it selects starts with the admin prefix, and the public page "/" is never selected |
| Actions.FormGet | lib/actions.ts:49-54 | `formData.get` finds nothing exactly when no entry has the name, and otherwise the value of the first entry with it |
| Actions.ParseTags | lib/actions.ts:55 | one tag per comma plus one, the i-th tag being the i-th comma-separated piece trimmed |
| Actions.ParseTagsOfJoin | lib/actions.ts:55 | names joined with commas are read back as those names trimmed, in order |
| Actions.ParseTagsOfTrimmedJoin | lib/actions.ts:55 | names joined with commas that are already trimmed are read back exactly |
| Actions.ParseTagsKeepsEmptyPieces | lib/actions.ts:55 | a blank piece between commas is kept as an empty tag in its place |
| Actions.ReadProject | lib/actions.ts:49-55 | the form is unreadable exactly when "tags" is missing; otherwise the tags are ParseTags of the field |
| Actions.AddProjectReadsForm | lib/actions.ts:42-72 | with a session and a "tags" field, addProject succeeds, logs exactly the project read and invalidates /admin/projects and / |
| Actions.Perform | lib/actions.ts:8-134 | no session on an admin action: Unauthorized, nothing logged or invalidated; the contact action always succeeds; the null-split failure happens exactly for addProject with a session and no "tags"; success logs one line and invalidates the action's paths; a throw logs and invalidates nothing |
| Actions.Invalidates | lib/actions.ts:36-131 | every admin action invalidates "/" and the contact action invalidates nothing; the invalidated paths are among "/", "/admin", "/admin/projects" and "/admin/achievements" |
| Actions.AdminActionSucceedsWithSession | lib/actions.ts:23-134 | with a session every admin action (addProject given "tags") returns success and invalidates its fixed paths |
| Actions.ContactFormAlwaysSucceeds | lib/actions.ts:8-20 | sendContactForm needs no session, logs the submission and invalidates nothing |
| Actions.Server.SendContactForm | lib/actions.ts:8-20 | result, log and invalidated set change exactly as Perform says |
| Actions.Server.UpdatePortfolioSection | lib/actions.ts:23-40 | result, log and invalidated set change exactly as Perform says |
| Actions.Server.AddProject | lib/actions.ts:42-72 | result, log and invalidated set change exactly as Perform says |
| Actions.Server.DeleteProject | lib/actions.ts:74-91 | result, log and invalidated set change exactly as Perform says |
| Actions.Server.AddAchievement | lib/actions.ts:93-115 | result, log and invalidated set change exactly as Perform says |
| Actions.Server.DeleteAchievement | lib/actions.ts:117-134 | result, log and invalidated set change exactly as Perform says |
| JsString.Utf16Length | components/admin/projects-list.tsx:30-42 | the length `.min` measures is between the character count and twice it, and zero only for the empty string |
| JsString.Utf16LengthOfBmp | components/admin/about-form.tsx:18-31 | on Basic Multilingual Plane text the measured length is the character count |
| JsString.TrimStart | lib/actions.ts:55 | a suffix of the input, everything dropped is trimmable, and it does not start with a trimmable character |
| JsString.TrimEnd | lib/actions.ts:55 | a prefix of the input, everything dropped is trimmable, and it does not end with a trimmable character |
| JsString.Trim | lib/actions.ts:55 | no longer than the input, and neither starts nor ends with a trimmable character |
| JsString.TrimIsInfix | lib/actions.ts:55 | the trimmed string is one contiguous slice of the input, and all that lies outside it is trimmable |
| JsString.TrimOfTrimmed | lib/actions.ts:55 | a string not starting or ending with whitespace is its own trim |
| JsString.TrimOfBlank | lib/actions.ts:55 | an all-whitespace string trims to "" |
| JsString.TrimIdempotent | lib/actions.ts:55 | trimming twice is trimming once |
| JsString.Split | lib/actions.ts:55 | one piece per separator plus one, no piece containing the separator |
| JsString.JoinSplit | lib/actions.ts:55 | joining the pieces of a split gives back the string |
| JsString.SplitJoin | lib/actions.ts:55 | splitting separator-free pieces joined with the separator gives back the pieces |
| Portfolio.GetPortfolioData | lib/portfolio.ts:187-193 | the document, with pairwise-distinct project ids and achievement ids, three projects and four achievements |
| Portfolio.SeedIdsDistinct | lib/portfolio.ts:44-185 | the seeded ids are pairwise distinct within each collection |
| Portfolio.FindByKey | lib/portfolio.ts:195-203 | `find` returns nothing exactly when no entry matches, and otherwise the first matching entry |
| Portfolio.FindByKeyDistinct | lib/portfolio.ts:195-203 | with distinct keys, looking up an entry's key returns that entry |
| Portfolio.GetProjectById | lib/portfolio.ts:195-198 | a project found has the queried id and is in the document; nothing is found exactly when no project has the id |
| Portfolio.GetAchievementById | lib/portfolio.ts:200-203 | an achievement found has the queried id and is in the document; nothing is found exactly when no achievement has the id |
| Portfolio.ProjectLookupInSeed | lib/portfolio.ts:195-198 | ids "1", "2", "3" and only those find a project, and each seeded project is found by its own id |
| Portfolio.AchievementLookupInSeed | lib/portfolio.ts:200-203 | ids "1" to "4" and only those find an achievement, and each seeded achievement is found by its own id |
| ContactRoute.Handler | app/api/contact/route.ts:3-26 | 405 exactly for non-POST; 400 exactly for POST with a falsy field; 200 exactly for POST with all fields and no throw; 500 exactly when the `try` block throws; one of these four always; something is logged exactly when all fields are present; the received-message line is logged exactly when all fields are present and formatting it did not throw; the failure line is logged exactly on 500, and last |
| ContactRoute.OnlyFailureDependsOnThrow | app/api/contact/route.ts:11-22 | without a throw there is no 500; every outcome other than 500 is the same whatever the `try` block would do; a throw in the log line and one after it give the same 500 answer |
| ContactRoute.NonEmptyStringsAccepted | app/api/contact/route.ts:4-18 | a POST with three non-empty strings gets 200 "Message sent successfully" |
| ProjectsList.Accepts | components/admin/projects-list.tsx:29-60 | `formSchema`: values it accepts have a non-empty title, a description of at least five characters (ten UTF-16 code units) and a non-empty tag string |
| Ui.OptionalUrl | components/admin/projects-list.tsx:43-56 | an optional URL field (`.url().optional().or(z.literal(""))`) accepts a missing value, "" or a URL |
| ProjectsList.DefaultsRefused | components/admin/projects-list.tsx:84-94 | the dialog's defaults, to which `form.reset()` returns, are refused by the schema |
| ProjectsList.Entries | components/admin/projects-list.tsx:101 | `Object.entries(values)`: the eight fields in the schema's key order (distinct keys: ProjectsList.EntryNamesDistinct) |
| ProjectsList.TruthyEntries | components/admin/projects-list.tsx:101-103 | the `if (value)` filter: the result is never longer than its input |
| ProjectsList.TruthyEntriesKeep | components/admin/projects-list.tsx:101-103 | the built FormData holds exactly the entries whose value is a non-empty string |
| ProjectsList.BuildFormData | components/admin/projects-list.tsx:100-103 | the `forEach` loop builds the truthy entries of the values, in order |
| ProjectsList.FieldsAfterFilter | components/admin/projects-list.tsx:100-105 | each field addProject reads is the submitted value if non-empty and null otherwise |
| ProjectsList.AcceptedValuesAreAdded | components/admin/projects-list.tsx:96-105 | values the schema accepts always carry "tags", so with a session addProject succeeds and logs the submitted project, empty optional fields as null |
| ProjectsList.ProjectsListView.constructor | components/admin/projects-list.tsx:77-94 | flags start false, no deletion in progress, the form holds its defaults |
| ProjectsList.ProjectsListView.OnSubmit | components/admin/projects-list.tsx:96-123 | the server changes as Perform says for the built FormData; the submit flag ends false; success resets the form and closes the dialog, failure leaves both |
| ProjectsList.ProjectsListView.Send | components/admin/projects-list.tsx:105-122 | the same, for any FormData |
| ProjectsList.ProjectsListView.HandleDeleteProject | components/admin/projects-list.tsx:125-144 | isDeleting holds the id during the call and is null afterwards, on success and failure |
| ProjectsList.CategoryLabel | components/admin/projects-list.tsx:361 | same length, everything after the first character unchanged, a lower-case ASCII first letter becomes the matching upper-case letter, and any other first character is unchanged |
| ProjectsList.CategoryLabelIdempotent | components/admin/projects-list.tsx:361 | labelling a label changes nothing |
| AboutForm.Accepts | components/admin/about-form.tsx:18-31 | `formSchema`: accepted values have a name of at least one character, a tagline of at least five and an about text of at least twenty-five (half the code-unit minimums) |
| AboutForm.DefaultValues | components/admin/about-form.tsx:43-48 | the form's defaults are the document's name, tagline, profile image and about text (partner: AboutForm.SeedDefaultsAccepted) |
| AboutForm.SeedDefaultsAccepted | components/admin/about-form.tsx:18-49 | the form opened on the seeded document passes its own schema, given that the image is a URL |
| AboutForm.AboutFormView.constructor | components/admin/about-form.tsx:38-49 | the defaults are the document's name, tagline, image and about text |
| AboutForm.AboutFormView.OnSubmit | components/admin/about-form.tsx:51-70 | section "about" is updated with the values as Perform says; the flag ends false on success and failure |
| AchievementsList.Accepts | components/admin/achievements-list.tsx:26-36 | `formSchema`: accepted values have a non-empty title and date and a description of at least five characters |
| AchievementsList.DefaultsRefused | components/admin/achievements-list.tsx:56-60 | the dialog's defaults, to which `form.reset()` returns, are refused by the schema |
| AchievementsList.Entries | components/admin/achievements-list.tsx:68 | `Object.entries(values)`: title, date and description in that order (partner: AchievementsList.SubmittedValuesAreLogged) |
| AchievementsList.BuildFormData | components/admin/achievements-list.tsx:67-70 | every entry is appended, empty or not, in order |
| AchievementsList.SubmittedValuesAreLogged | components/admin/achievements-list.tsx:63-72 | with a session the achievement is added carrying exactly the three submitted values |
| AchievementsList.AcceptedValuesAreLogged | components/admin/achievements-list.tsx:26-72 | values the schema accepts, with a session, are added as one achievement whose title and date are non-empty and whose description has at least five characters |
| AchievementsList.AchievementsListView.constructor | components/admin/achievements-list.tsx:49-61 | flags start false, no deletion in progress, the form holds its defaults |
| AchievementsList.AchievementsListView.OnSubmit | components/admin/achievements-list.tsx:63-90 | the server changes as Perform says; the flag ends false; success resets the form and closes the dialog, failure leaves both |
| AchievementsList.AchievementsListView.HandleDeleteAchievement | components/admin/achievements-list.tsx:92-111 | isDeleting holds the id during the call and is null afterwards |
| ContactSettings.Accepts | components/admin/contact-settings.tsx:16-41 | `formSchema`: with every link missing or empty the form is accepted exactly when the e-mail is an address, so the three links are optional |
| ContactSettings.DefaultValues | components/admin/contact-settings.tsx:53-58 | each field is the stored value or "" (`link \|\| ""`); partner: ContactSettings.DefaultsMirrorLinks |
| ContactSettings.DefaultsMirrorLinks | components/admin/contact-settings.tsx:53-58 | every field opens as a string, "" exactly when the link is missing or empty, and the stored link otherwise |
| ContactSettings.DefaultsAcceptedWhenLinksValid | components/admin/contact-settings.tsx:16-59 | a document with URL links and an e-mail address opens a form that can be saved unchanged |
| ContactSettings.MissingEmailBlocksSave | components/admin/contact-settings.tsx:38-57 | a document without an e-mail opens a form that cannot be saved as it is |
| ContactSettings.SeedDefaults | components/admin/contact-settings.tsx:51-59 | the seeded document opens with an empty Twitter field and can be saved as it is |
| ContactSettings.ContactSettingsView.constructor | components/admin/contact-settings.tsx:51-59 | the defaults are the document's links with "" for missing ones |
| ContactSettings.ContactSettingsView.OnSubmit | components/admin/contact-settings.tsx:61-80 | section "socialLinks" is updated with the values as Perform says; the flag ends false |
| TechStackForm.ItemAccepted | components/admin/tech-stack-form.tsx:17-20 | `techItemSchema`: an accepted technology has a non-empty name and a URL icon |
| TechStackForm.CategoryAccepted | components/admin/tech-stack-form.tsx:22-25 | `categorySchema`: an accepted category has a non-empty name; one without technologies is accepted exactly when it is named |
| TechStackForm.Accepts | components/admin/tech-stack-form.tsx:27-29 | `formSchema`: every category of an accepted stack is named, and an empty stack is accepted |
| TechStackForm.Defaults | components/admin/tech-stack-form.tsx:39-44 | one form category per document category |
| TechStackForm.DefaultsAccepted | components/admin/tech-stack-form.tsx:17-44 | a document with named categories and items and URL icons opens a form that can be saved unchanged |
| TechStackForm.Parse | components/admin/tech-stack-form.tsx:62-66 | the saved stack has one entry per category |
| TechStackForm.ParseKeepsNamesAndIcons | components/admin/tech-stack-form.tsx:17-29 | the saved stack keeps every category name, item name and icon in place |
| TechStackForm.ParseIgnoresUrl | components/admin/tech-stack-form.tsx:17-20 | an item's url never reaches the server: changing it leaves the saved stack unchanged |
| TechStackForm.RemoveAt | components/admin/tech-stack-form.tsx:112 | `remove(i)` drops exactly entry i and keeps the others in order |
| TechStackForm.RemoveAppended | components/admin/tech-stack-form.tsx:197 | removing the entry just appended restores the list |
| TechStackForm.AppendedCategoryBlocksSave | components/admin/tech-stack-form.tsx:197 | after "Add Category" the form cannot be saved until the new category is named |
| TechStackForm.AppendedItemBlocksSave | components/admin/tech-stack-form.tsx:140 | after "Add Technology" the form cannot be saved until the new item is filled in |
| TechStackForm.NamedCategoryUnblocksSave | components/admin/tech-stack-form.tsx:119-131 | naming the category just appended to a savable form makes it savable again |
| TechStackForm.FilledItemUnblocksSave | components/admin/tech-stack-form.tsx:147-176 | giving the technology just appended a name and a URL icon makes a savable form savable again |
| TechStackForm.RemoveCategoryKeepsAccepted | components/admin/tech-stack-form.tsx:112 | removing a category keeps a savable form savable |
| TechStackForm.RemoveItemKeepsAccepted | components/admin/tech-stack-form.tsx:183 | removing an item keeps a savable form savable |
| TechStackForm.CategoryEditBreaksRenderAsWritten | components/admin/tech-stack-form.tsx:55-60 | with one field array per category, a change in the category count makes the next render throw |
| TechStackForm.AppendCategoryBreaksRenderAsWritten | components/admin/tech-stack-form.tsx:55-60 | as written, the render after "Add Category" (the stack `AppendCategory` leaves) calls a different number of hooks and fails |
| TechStackForm.RemoveCategoryBreaksRenderAsWritten | components/admin/tech-stack-form.tsx:55-60 | as written, the render after a category's delete button (the stack `RemoveCategory` leaves) fails likewise |
| TechStackForm.CategoryEditRenders | components/admin/tech-stack-form.tsx:55-60 | with the item field arrays owned per category, every category count renders |
| TechStackForm.CategoryButtonsRender | components/admin/tech-stack-form.tsx:55-60 | with the item field arrays owned per category, the render after either category button goes through |
| TechStackForm.TechStackFormView.constructor | components/admin/tech-stack-form.tsx:39-44 | the field arrays start as the document's tech stack |
| TechStackForm.TechStackFormView.AppendCategory | components/admin/tech-stack-form.tsx:197 | exactly one empty category is added at the end |
| TechStackForm.TechStackFormView.RemoveCategory | components/admin/tech-stack-form.tsx:112 | exactly that category is removed |
| TechStackForm.TechStackFormView.SetCategoryName | components/admin/tech-stack-form.tsx:119-131 | typing a category name replaces exactly that category's name |
| TechStackForm.TechStackFormView.SetItemName | components/admin/tech-stack-form.tsx:149-161 | typing a technology name replaces exactly that technology's name |
| TechStackForm.TechStackFormView.SetItemIcon | components/admin/tech-stack-form.tsx:164-176 | typing an icon URL replaces exactly that technology's icon |
| TechStackForm.TechStackFormView.AppendTechItem | components/admin/tech-stack-form.tsx:140 | exactly one empty item is added at the end of that category only |
| TechStackForm.TechStackFormView.RemoveTechItem | components/admin/tech-stack-form.tsx:183 | exactly that item of that category is removed |
| TechStackForm.TechStackFormView.HandleSubmit | components/admin/tech-stack-form.tsx:62-81 | a refused stack changes nothing; an accepted one updates section "techStack" with the whole parsed stack as Perform says and the flag ends false |
| LoginPage.Accepts | app/admin/login/page.tsx:17-24 | `formSchema`: `.min(1)` on username and password (partner: LoginPage.AcceptsNonEmpty) |
| LoginPage.AcceptsNonEmpty | app/admin/login/page.tsx:17-24 | the schema accepts exactly a non-empty username and a non-empty password |
| LoginPage.AfterSignIn | app/admin/login/page.tsx:49-66 | navigation to /admin happens exactly when signIn resolved without a truthy error; the failure toast exactly for a truthy error; the error toast exactly when signIn threw |
| LoginPage.EmptyErrorNavigates | app/admin/login/page.tsx:49-57 | an empty error string counts as success and navigates |
| LoginPage.DashboardStillGuarded | app/admin/login/page.tsx:56 | the /admin the page navigates to is redirected back without a session token and let through with one |
| LoginPage.LoginPageView.constructor | app/admin/login/page.tsx:27 | loading starts false |
| LoginPage.LoginPageView.OnSubmit | app/admin/login/page.tsx:39-68 | sign-in is requested with redirect false, then the steps AfterSignIn gives, and loading ends false on every path |

## Left out

- Session tokens are abstract. Signing, expiry and validation by next-auth (`getToken`, `auth()`) are not modelled; a session is an abstract value that is present or absent.
- The credential check is not modelled. `signIn`'s answer is a parameter of `LoginPage.LoginPageView.OnSubmit`.
- zod's URL and e-mail recognisers are parameters, not definitions.
- Actions.Server: the one-second delays, the `console.log` text and the cache machinery behind `revalidatePath` are left out. Only the log entries and the set of invalidated paths are kept.
- No action modifies the portfolio document. The document is a constant, and no action or lookup writes it, so this holds by construction rather than by a lemma.
- React's `cache` memoisation of `getPortfolioData` and its 100 ms delay are not modelled.
- Toasts are recorded as steps, not displayed. Rendering, icons and layout are not modelled.
- ProjectsList.CategoryLabel: upper-cases ASCII letters only. `toUpperCase` on other letters, including those that expand such as "ß", is not modelled.
- Middleware.HandleRequest: the matcher "/admin/:path*" is modelled as "/admin" or anything under "/admin/". The full path-to-regexp matching (trailing slashes, encoded characters, locale and base-path prefixes) is not.
- ContactRoute.Handler: assumes the parsed body is an object. Destructuring a missing body throws outside the `try`, and the framework's answer to that is not modelled.
- ContactRoute.Handler: the handler is written with the Pages-router signature but sits under `app/`. The model describes the function as written, not whether the framework calls it.
- ContactRoute.Handler: whether and where the `try` block throws (while formatting the log line, or after writing it) is the parameter `thrown`; which body values make the string conversion throw is not modelled.
- ProjectsList.AcceptedValuesAreAdded: assumes that zod's URL recogniser rejects "". That is what makes an accepted image field non-empty.
- The forms other than the tech-stack editor take the values `form.handleSubmit` hands over after validation. The field bindings themselves are not modelled.
- TechStackForm.TechStackFormView.RemoveCategory and TechStackForm.TechStackFormView.RemoveTechItem: require an index in range. The delete buttons only pass rendered indexes, so out-of-range removal is not modelled.
- The field-array ids react-hook-form attaches to entries are not modelled.
- Strings are sequences of Unicode code points. UTF-16 surrogate handling matters only for `.min` lengths, which `JsString.Utf16Length` counts.
- lib/portfolio.js (a compiled copy of lib/portfolio.ts) is not part of this model.
- lib/db.ts (an unused mock) is not part of this model.
- lib/auth-utils.ts and the next-auth route are not part of this model.
- app/layout.tsx, app/page.tsx and app/server-layout.tsx are not part of this model.
- app/admin/page.tsx and app/admin/login/about/page.tsx are not part of this model.
- The rendering components (dashboard, project card, tech stack, achievement card) and pages/home.tsx are not part of this model.

## Findings

| source | as written | input that shows it | evidently intended | confidence | as-written member | corrected member |
|---|---|---|---|---|---|---|
| components/admin/tech-stack-form.tsx:55-60 | `useFieldArray` is called once per category inside `categories.map`, so the number of hooks the component calls follows the number of categories | press "Add Category" (line 197) or a category's delete button (line 112): the next render calls one hook more or fewer than the previous one, which React refuses by throwing | the items field array of each category owned by a child component, so this component calls the same hooks on every render and category edits take effect (as `TechStackForm.TechStackFormView` models them) | high; not executed | TechStackForm.AppendCategoryBreaksRenderAsWritten | TechStackForm.CategoryButtonsRender |
