/** router/router.go: the route table that registrations append to before the mux is built. */
module Router {
  import opened Util

  /** An application handler (`http.HandlerFunc`), known only by identity; nil is `None`. */
  datatype HandlerFunc = HandlerFunc(id: nat)

  /** A registered route; its handler is never nil. */
  datatype Route = Route(verb: string, path: string, handler: HandlerFunc)

  const MethodGet := "GET"
  const MethodPost := "POST"
  const MethodPut := "PUT"
  const MethodPatch := "PATCH"
  const MethodDelete := "DELETE"

  // router/router_test.go:44 expects "handler param cannot be nil"; router/router.go:46
  // panics with the message below, which is the one modelled.
  const NilHandlerMessage := "handler cannot be nil"

  /** `BuildPath`: the path with a leading slash; the empty path becomes the root. */
  function BuildPath(path: string): (r: string)
    ensures |r| == |path| + 1 && r[0] == '/' && r[1..] == path
  {
    "/" + path
  }

  lemma BuildPathExamples()
    ensures BuildPath("") == "/"
    ensures BuildPath("articles") == "/articles"
    ensures BuildPath("articles/:id") == "/articles/:id"
  {
  }

  /** `buildRoute`: the route for a method, with the path made absolute. */
  function BuildRoute(verb: string, path: string, handler: HandlerFunc): (r: Route)
    ensures r.verb == verb && r.handler == handler
    ensures |r.path| == |path| + 1 && r.path[0] == '/' && r.path[1..] == path
  {
    Route(verb, BuildPath(path), handler)
  }

  /** The package's `router`: the routes in registration order. */
  class Router {
    var routes: seq<Route>

    /** `build`: an empty route table. */
    constructor ()
      ensures routes == []
    {
      routes := [];
    }

    /**
     * One registration: a nil handler panics and leaves the table unchanged; otherwise exactly
     * one route is appended after the existing ones.
     */
    method Register(verb: string, path: string, handler: Option<HandlerFunc>) returns (panic: Option<string>)
      modifies this
      ensures handler.None? ==> panic == Some(NilHandlerMessage) && routes == old(routes)
      ensures handler.Some? ==> panic.None? && routes == old(routes) + [BuildRoute(verb, path, handler.value)]
    {
      if handler.None? {
        return Some(NilHandlerMessage);
      }
      routes := routes + [BuildRoute(verb, path, handler.value)];
      return None;
    }

    method Get(path: string, handler: Option<HandlerFunc>) returns (panic: Option<string>)
      modifies this
      ensures handler.None? ==> panic == Some(NilHandlerMessage) && routes == old(routes)
      ensures handler.Some? ==> panic.None? && routes == old(routes) + [Route(MethodGet, BuildPath(path), handler.value)]
    {
      panic := Register(MethodGet, path, handler);
    }

    method Post(path: string, handler: Option<HandlerFunc>) returns (panic: Option<string>)
      modifies this
      ensures handler.None? ==> panic == Some(NilHandlerMessage) && routes == old(routes)
      ensures handler.Some? ==> panic.None? && routes == old(routes) + [Route(MethodPost, BuildPath(path), handler.value)]
    {
      panic := Register(MethodPost, path, handler);
    }

    method Put(path: string, handler: Option<HandlerFunc>) returns (panic: Option<string>)
      modifies this
      ensures handler.None? ==> panic == Some(NilHandlerMessage) && routes == old(routes)
      ensures handler.Some? ==> panic.None? && routes == old(routes) + [Route(MethodPut, BuildPath(path), handler.value)]
    {
      panic := Register(MethodPut, path, handler);
    }

    method Patch(path: string, handler: Option<HandlerFunc>) returns (panic: Option<string>)
      modifies this
      ensures handler.None? ==> panic == Some(NilHandlerMessage) && routes == old(routes)
      ensures handler.Some? ==> panic.None? && routes == old(routes) + [Route(MethodPatch, BuildPath(path), handler.value)]
    {
      panic := Register(MethodPatch, path, handler);
    }

    method Delete(path: string, handler: Option<HandlerFunc>) returns (panic: Option<string>)
      modifies this
      ensures handler.None? ==> panic == Some(NilHandlerMessage) && routes == old(routes)
      ensures handler.Some? ==> panic.None? && routes == old(routes) + [Route(MethodDelete, BuildPath(path), handler.value)]
    {
      panic := Register(MethodDelete, path, handler);
    }
  }

  /** A fresh router given one GET registration holds exactly that route, as the tests expect. */
  method RegisterOne(handler: HandlerFunc) returns (routes: seq<Route>)
    ensures routes == [Route("GET", "/articles", handler)]
  {
    var r := new Router();
    var panic := r.Get("articles", Some(handler));
    assert BuildPath("articles") == "/articles";
    routes := r.routes;
  }
}
