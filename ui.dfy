// What the admin pages share: the optional-URL field of their schemas, and
// what they do besides computing values, recorded in order (React state
// updates, server-action calls, sign-in requests, toasts, form resets and
// router navigation).
module Ui {
  import opened Wrappers
  import Actions

  /** `z.string().url().optional().or(z.literal(""))`: absent, empty, or a URL; `isUrl` stands for zod's URL recogniser. */
  predicate OptionalUrl(link: Option<string>, isUrl: string -> bool) {
    link.None? || link.value == "" || isUrl(link.value)
  }

  datatype Toast = Toast(title: string, description: string, destructive: bool)

  datatype Step =
    | SubmittingSet(submitting: bool)
    | DeletingSet(deleting: Option<string>)
    | DialogOpenSet(open: bool)
    | LoadingSet(loading: bool)
    | Called(call: Actions.Call)
    | SignInRequested(provider: string, username: string, password: string, redirect: bool)
    | Toasted(toast: Toast)
    | FormReset
    | Navigated(path: string)
    | Refreshed
}
