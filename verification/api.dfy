/** The requests the core sends through the shared HTTP client. The client
    itself is an external collaborator: a request is recorded as a value and
    its response is an input of the operation that sends it. */
module Api {

  /** A POST of a flat JSON object to a backend path. */
  datatype Request = Post(path: string, body: map<string, string>)

  /** `POST /sessions` with the credentials typed by the user. */
  function PostSessions(email: string, password: string): (req: Request)
    ensures req.path == "/sessions"
    ensures req.body.Keys == {"email", "password"}
    ensures req.body["email"] == email && req.body["password"] == password
  {
    Post("/sessions", map["email" := email, "password" := password])
  }

  /** `POST /users` creating an account. */
  function PostUsers(name: string, email: string, password: string): (req: Request)
    ensures req.path == "/users"
    ensures req.body.Keys == {"name", "email", "password"}
    ensures req.body["name"] == name && req.body["email"] == email && req.body["password"] == password
  {
    Post("/users", map["name" := name, "email" := email, "password" := password])
  }
}
