/** What a route element renders, as far as the session decides it. */
module Views {
  import opened Wrappers

  datatype View =
    | Spinner
    | Redirect(to: string, replace: bool, from: Option<string>)
    | OutletWithChat
    | Children
}
