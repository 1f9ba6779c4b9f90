/**
 * The root route of `web/src/routes/__root.tsx`: the redirect guard run before every route
 * loads, and the theme cell with the effect that mirrors it into the page and local storage.
 */
module RootRoute {

  import opened Wrappers
  import Text

  /** The router context: the session (absent when signed out) and whether it is known yet. */
  datatype RouterContext = RouterContext(session: Option<string>, sessionReady: bool)

  const LoginPath := "/login"

  /** `/\/(login|signup)$/`: the path ends in "/login" or "/signup". */
  predicate IsAuthPath(path: string) {
    Text.EndsWith(path, "/login") || Text.EndsWith(path, "/signup")
  }

  /** `beforeLoad`: the redirect thrown for this context and path, if any. */
  function BeforeLoad(ctx: RouterContext, path: string): (r: Option<string>)
    ensures r.Some? ==> r.value == LoginPath
  {
    if ctx.sessionReady && ctx.session.None? && !IsAuthPath(path) then Some(LoginPath) else None
  }

  lemma RedirectIff(ctx: RouterContext, path: string)
    ensures BeforeLoad(ctx, path).Some? <==> ctx.sessionReady && ctx.session.None? && !IsAuthPath(path)
  {
  }

  /** Nothing is redirected while the session is still loading, nor while signed in. */
  lemma NoRedirectUnlessSignedOut(ctx: RouterContext, path: string)
    requires !ctx.sessionReady || ctx.session.Some?
    ensures BeforeLoad(ctx, path).None?
  {
  }

  /** The redirect target is an auth path, so following a redirect never redirects again. */
  lemma {:induction false} RedirectDoesNotLoop(ctx: RouterContext, path: string)
    requires BeforeLoad(ctx, path).Some?
    ensures IsAuthPath(BeforeLoad(ctx, path).value)
    ensures BeforeLoad(ctx, BeforeLoad(ctx, path).value).None?
  {
    assert LoginPath[|LoginPath| - |"/login"|..] == "/login";
  }

  /** `localStorage.getItem("theme") || "light"`: a missing or empty stored value gives "light". */
  function InitialTheme(stored: Option<string>): (t: string)
    ensures t != ""
    ensures stored.Some? && stored.value != "" ==> t == stored.value
    ensures stored.None? || stored == Some("") ==> t == "light"
  {
    if stored.Some? && stored.value != "" then stored.value else "light"
  }

  /** The toggle button: "dark" becomes "light", anything else becomes "dark". */
  function Toggled(t: string): (u: string)
    ensures u == "dark" || u == "light"
    ensures u == "dark" <==> t != "dark"
  {
    if t == "dark" then "light" else "dark"
  }

  /**
   * Toggling twice restores the theme exactly when it was one of the two themes; a stored
   * value outside them (the cast does not check it) comes back as "light".
   */
  lemma ToggleTwice(t: string)
    ensures Toggled(Toggled(t)) == t <==> t == "dark" || t == "light"
    ensures Toggled(Toggled(t)) == (if t == "dark" then "dark" else "light")
  {
  }

  /** From the first toggle on, the theme is always one of the two. */
  lemma ToggledThemesAlternate(t: string)
    ensures Toggled(t) != t
    ensures Toggled(Toggled(Toggled(t))) == Toggled(t)
  {
  }

  /**
   * The `theme` state cell, the `dark` class on the document element and the stored
   * `theme` entry; the effect keeps the last two in step with the first.
   */
  class ThemeCell {
    var theme: string
    var darkClass: bool
    var stored: Option<string>

    ghost predicate Valid()
      reads this
    {
      darkClass == (theme == "dark") && stored == Some(theme)
    }

    /** Mount: the initial theme read from storage, then the effect applies it. */
    constructor (initial: Option<string>)
      ensures Valid()
      ensures theme == InitialTheme(initial)
    {
      var t := InitialTheme(initial);
      theme := t;
      darkClass := t == "dark";
      stored := Some(t);
    }

    /** The toggle button, followed by the effect. */
    method Toggle()
      requires Valid()
      modifies this
      ensures Valid()
      ensures theme == Toggled(old(theme))
    {
      theme := Toggled(theme);
      darkClass := theme == "dark";
      stored := Some(theme);
    }

    /** The button's label names the theme a click switches to. */
    function ButtonLabel(): (caption: string)
      reads this
      ensures caption == "Light" <==> theme == "dark"
      ensures caption == "Light" || caption == "Dark"
    {
      if theme == "dark" then "Light" else "Dark"
    }
  }
}
