/**
 * The router the pages navigate with (`useNavigate` of react-router). It is a
 * collaborator, not part of the application: the model only records, in order,
 * the paths the application asked it to navigate to.
 */
module Navigation {

  class Router {
    /** Every `navigate(path)` call so far, oldest first. */
    var history: seq<string>

    constructor ()
      ensures history == []
    {
      history := [];
    }

    /** `navigate(path)`. */
    method Navigate(path: string)
      modifies this
      ensures history == old(history) + [path]
    {
      history := history + [path];
    }
  }
}
