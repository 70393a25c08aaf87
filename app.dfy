/** The root component of Front/Gerenciador-Tarefas/src/app/app.ts: the
    route it records after every navigation, cleaned of query string and
    fragment, and whether it shows the navigation bar. */
module AppComponent {
  import Api

  /** `s.split(c)[0]`: the part of `s` before the first `c`, or all of `s`. */
  function BeforeFirst(s: string, c: char): (r: string)
    ensures r <= s
    ensures c !in r
    ensures |r| < |s| ==> s[|r|] == c
  {
    if s == [] then []
    else if s[0] == c then []
    else [s[0]] + BeforeFirst(s[1..], c)
  }

  /** `url.split('?')[0].split('#')[0]`: `url` cut at its first `?` or `#`,
      whichever comes first. */
  function CleanRoute(url: string): (r: string)
    ensures r <= url
    ensures '?' !in r && '#' !in r
    ensures |r| < |url| ==> url[|r|] == '?' || url[|r|] == '#'
    ensures '?' !in url && '#' !in url ==> r == url
  {
    BeforeFirst(BeforeFirst(url, '?'), '#')
  }

  /** A cleaned route is its own cleaning. */
  lemma CleanRouteIdempotent(url: string)
    ensures CleanRoute(CleanRoute(url)) == CleanRoute(url)
  {
  }

  /** The two properties of `CleanRoute` fix its result: any prefix free of
      `?` and `#` that stops at a `?`, a `#` or the end is that result. */
  lemma CleanRouteUnique(url: string, r: string)
    requires r <= url && '?' !in r && '#' !in r
    requires |r| < |url| ==> url[|r|] == '?' || url[|r|] == '#'
    ensures r == CleanRoute(url)
  {
  }

  /** `rotasPublicas`: routes on which the navigation bar is hidden. */
  const RotasPublicas: seq<string> := ["/login", "/"]

  /** `mostrarBarraNavegacao` over its two inputs. */
  function ShowNavbar(autenticado: bool, rota: string): (r: bool)
    ensures r <==> autenticado && rota != "/login" && rota != "/"
    ensures !autenticado ==> !r
  {
    autenticado && rota !in RotasPublicas
  }

  class App {
    var rotaAtual: string
    const api: Api.ApiService

    constructor (api: Api.ApiService)
      ensures this.api == api && rotaAtual == ""
    {
      this.api := api;
      rotaAtual := "";
    }

    /** The route update done in `ngOnInit`, for the initial router URL and
        for every `NavigationEnd` event. */
    method SetRoute(url: string)
      modifies this
      ensures rotaAtual == CleanRoute(url)
      ensures '?' !in rotaAtual && '#' !in rotaAtual && rotaAtual <= url
    {
      var rotaLimpa := CleanRoute(url);
      rotaAtual := rotaLimpa;
    }

    /** `mostrarBarraNavegacao` on the current state. */
    function MostrarBarraNavegacao(): (r: bool)
      reads this, api
      ensures r <==> api.autenticado && rotaAtual != "/login" && rotaAtual != "/"
    {
      ShowNavbar(api.autenticado, rotaAtual)
    }
  }

  /** After a logout the bar is hidden whatever the route. */
  method LogoutHidesNavbar(app: App, url: string)
    modifies app, app.api
    ensures !app.MostrarBarraNavegacao()
  {
    app.SetRoute(url);
    app.api.Logout();
  }
}
