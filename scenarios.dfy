/**
  The demo application's three outcomes for loading todo "1": the transport
  raising a `TypeError`, a 501 response, and a 200 response with a todo body.
 */
module Scenarios {
  import opened TypedFetchCore

  /** The body the todos API returns for one todo. */
  datatype Todo = Todo(id: int, userId: int, completed: bool, title: string)

  /** The API the demo queries. */
  const BaseUrl: string := "https://jsonplaceholder.typicode.com/todos"

  /** `loadTodos(todoId)`: a typed fetch of `BaseUrl/todoId`. */
  function LoadTodos(todoId: string, o: FetchOutcome<Todo>): (r: QueryResult<Todo, FetchError>)
    ensures r.Error? ==> r.error.url == BaseUrl + "/" + todoId
    ensures r.Result? <==> o.Responded? && o.ok && o.body.Decoded?
    ensures Promised(Url(BaseUrl + "/" + todoId), o, r)
  {
    Classification(Url(BaseUrl + "/" + todoId), o);
    TypedFetch(Url(BaseUrl + "/" + todoId), o)
  }

  /** `fetch` throws `TypeError("failed to fetch")`: a network error wrapping it. */
  lemma NetworkErrorScenario()
    ensures LoadTodos("1", Threw(JsError("TypeError", "failed to fetch")))
         == Error(NetworkError(JsError("TypeError", "failed to fetch"), BaseUrl + "/1"))
  {
    assert BaseUrl + "/" + "1" == BaseUrl + "/1";
  }

  /** A 501 "internal server error" response, whatever its body: a status error with code 501. */
  lemma HttpStatusErrorScenario(body: Body<Todo>)
    ensures var r := LoadTodos("1", Respond(501, "internal server error", body));
      r.Error? && r.error.HTTPStatusError? && r.error.code == 501
      && r.error.statusText == "internal server error"
  {
  }

  /** A 200 response with a todo body: a result whose title is "todo title". */
  lemma ResultScenario()
    ensures var todo := Todo(1, 1, false, "todo title");
      var r := LoadTodos("1", Respond(200, "", Decoded(todo)));
      r == Result(todo) && r.result.title == "todo title"
  {
  }
}
