/** What a UI handler hands back to the user instead of drawing it: the toast
    it raises, the route it navigates to, or nothing at all. */
module Ui {

  datatype Option<+T> = None | Some(value: T)

  /** The visible result of one handler call.
      `Error` and `Success` are `toast.error` and `toast.success`;
      `Navigate` is a bare `navigate(path)`; `SuccessAndNavigate` is a success
      toast immediately followed by a navigation. */
  datatype Outcome =
    | Stay
    | Error(message: string)
    | Success(message: string)
    | Navigate(path: string)
    | SuccessAndNavigate(message: string, path: string)
  {
    /** True when the handler leaves the current page. */
    predicate Leaves() {
      Navigate? || SuccessAndNavigate?
    }
  }
}
