/** What a handler answers: a redirect, or a page with a status code. */
module Http {
  import opened Wrappers

  /** The pages the handlers render (their HTML is not modelled, only which one). */
  datatype View =
    | NotFoundPage
    | RentFailure
    | RentReceivedPending
    | ConfirmView(title: string, quantity: int, totalUnits: int)
    | OrderDetailView(title: string, orderId: int)
    | OrdersList(ids: seq<int>)
    | SignupFailure
    | SignupSuccess
    | EmailForm(valid: bool, email: string)
    | LoginForm
    | Empty
    | BackfillReport(processed: nat, created: nat, existing: nat, errors: seq<int>,
                     done: bool, nextCursor: Option<int>)

  datatype Response =
    | Redirect(location: string)
    | Page(code: int, view: View)
}
