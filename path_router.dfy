/** The path router of framework/core/router.js.

    The route table maps paths to entries; an entry is a view function,
    whose output is given directly, or some other JavaScript value, of
    which only its truthiness matters. The browser's location, its history
    stack, the children of the #app element and the console's error output
    are the fields of `Router`. */
module PathRouter {

  import opened Options

  /** What a view function returns when called. */
  type Element = string

  datatype Entry = View(output: Element) | NotAFunction(truthy: bool)

  function EndsWithSlash(path: string): bool {
    |path| > 0 && path[|path| - 1] == '/'
  }

  /** Trailing-slash normalisation: one slash is dropped, except from "/" itself. */
  function Normalize(path: string): (r: string)
    ensures path == r || path == r + "/"
    ensures r == path <==> path == "/" || !EndsWithSlash(path)
  {
    if EndsWithSlash(path) && path != "/" then path[..|path| - 1] else path
  }

  /** Only one slash goes: "a//" becomes "a/", and "/" stays "/". */
  lemma NormalizeStripsOneSlash()
    ensures Normalize("a//") == "a/"
    ensures Normalize("/") == "/"
    ensures Normalize("/notes/") == "/notes"
  {
  }

  function Truthy(e: Entry): bool {
    match e
    case View(_) => true
    case NotAFunction(t) => t
  }

  /** The entry `loadRoute` reads: the one for `path` when it is present and
      truthy, otherwise the one for "/404"; `None` stands for `undefined`. */
  function Lookup(routes: map<string, Entry>, path: string): (r: Option<Entry>)
    ensures path in routes && Truthy(routes[path]) ==> r == Some(routes[path])
    ensures !(path in routes && Truthy(routes[path])) && "/404" in routes ==> r == Some(routes["/404"])
    ensures !(path in routes && Truthy(routes[path])) && "/404" !in routes ==> r == None
  {
    if path in routes && Truthy(routes[path]) then Some(routes[path])
    else if "/404" in routes then Some(routes["/404"])
    else None
  }

  /** The view `loadRoute` mounts, or `None` when the lookup yields no function. */
  function SelectView(routes: map<string, Entry>, path: string): (r: Option<Element>)
    ensures path in routes && routes[path].View? ==> r == Some(routes[path].output)
    ensures (path !in routes || !Truthy(routes[path])) && "/404" in routes && routes["/404"].View? ==>
      r == Some(routes["/404"].output)
    ensures path in routes && routes[path] == NotAFunction(true) ==> r == None
    ensures (path !in routes || !Truthy(routes[path])) && !("/404" in routes && routes["/404"].View?) ==> r == None
  {
    match Lookup(routes, path)
    case Some(View(e)) => Some(e)
    case _ => None
  }

  class Router {
    const routes: map<string, Entry>
    /** `window.location.pathname` */
    var pathname: string
    /** The entries pushed with `history.pushState`. */
    var history: seq<string>
    /** The children of the #app element. */
    var app: seq<Element>
    /** Messages written with `console.error`. */
    var errors: seq<string>

    constructor (routes: map<string, Entry>, pathname: string)
      ensures this.routes == routes && this.pathname == pathname
      ensures history == [] && app == [] && errors == []
    {
      this.routes := routes;
      this.pathname := pathname;
      history := [];
      app := [];
      errors := [];
    }

    /** Mounts the view for the normalised location, or reports that there
        is none and leaves #app as it was. */
    method LoadRoute()
      modifies this
      ensures pathname == old(pathname) && history == old(history)
      ensures SelectView(routes, Normalize(pathname)).None? ==>
        app == old(app) && errors == old(errors) + ["No route found for path: " + Normalize(pathname)]
      ensures SelectView(routes, Normalize(pathname)).Some? ==>
        app == [SelectView(routes, Normalize(pathname)).value] && errors == old(errors)
    {
      var path := pathname;
      if EndsWithSlash(path) && path != "/" {
        path := path[..|path| - 1];
      }
      var view := Lookup(routes, path);
      if !(view.Some? && view.value.View?) {
        errors := errors + ["No route found for path: " + path];
        return;
      }
      app := [];
      app := app + [view.value.output];
    }

    /** Records the path in the history, then loads the route for it. */
    method Navigate(path: string)
      modifies this
      ensures pathname == path && history == old(history) + [path]
      ensures SelectView(routes, Normalize(path)).None? ==>
        app == old(app) && errors == old(errors) + ["No route found for path: " + Normalize(path)]
      ensures SelectView(routes, Normalize(path)).Some? ==>
        app == [SelectView(routes, Normalize(path)).value] && errors == old(errors)
    {
      history := history + [path];
      pathname := path;
      LoadRoute();
    }
  }

  /** Navigating to "/notes/" mounts the "/notes" view; to an unknown path, the 404 view. */
  method NavigateScenario(notes: Element, notFound: Element) returns (first: seq<Element>, second: seq<Element>)
    ensures first == [notes] && second == [notFound]
  {
    var router := new Router(map["/notes" := View(notes), "/404" := View(notFound)], "/");
    router.Navigate("/notes/");
    NormalizeStripsOneSlash();
    first := router.app;
    router.Navigate("/elsewhere");
    second := router.app;
  }
}
