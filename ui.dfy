/** What a guarded page renders, and the navigation it asks the router for. */
module Ui {
  import opened Wrappers

  /** The three render outcomes: a loading spinner, nothing at all, or the page itself. */
  datatype View = Spinner | Nothing | Content

  /** A render choice together with the path passed to `router.push`, if any. */
  datatype Decision = Decision(view: View, redirect: Option<string>)
}
