/** An abstract browser standing in for the Selenium WebDriver that the page
    objects drive. Waiting is not modelled: an element "becomes visible
    within the timeout" exactly when it is visible in the current state. */
module WebDriver {

  /** Locator strategies the page classes use (By.ID, By.NAME, By.XPATH). */
  datatype By = Id | Name | XPath

  /** A (strategy, criteria) pair. It is also the identity of the element it finds. */
  datatype Locator = Locator(strategy: By, criteria: string)

  /** What the web application shows at one URL. */
  datatype Screen = Screen(title: string, shows: set<Locator>)

  /** The web application under test: the screen at each known URL, and the
      URL a clickable element leads to. */
  datatype WebApp = WebApp(screens: map<string, Screen>, links: map<Locator, string>)

  /** Everything the page objects can observe of the browser: the current
      URL and title, the visible elements, the text typed into each element,
      and the elements outlined so far by the highlight script, in order. */
  datatype BrowserState = BrowserState(
    url: string,
    title: string,
    visible: set<Locator>,
    text: map<Locator, string>,
    outlined: seq<Locator>)

  /** The screen of a URL the application does not know. */
  const Blank := Screen("", {})

  function ScreenAt(app: WebApp, u: string): Screen {
    if u in app.screens then app.screens[u] else Blank
  }

  /** The state after `driver.get(u)`: a fresh page with empty inputs. */
  function Loaded(app: WebApp, s: BrowserState, u: string): BrowserState {
    BrowserState(u, ScreenAt(app, u).title, ScreenAt(app, u).shows, map[], s.outlined)
  }

  /** The state after clicking `e`: a link follows to its URL, anything else changes nothing. */
  function Clicked(app: WebApp, s: BrowserState, e: Locator): BrowserState {
    if e in app.links then Loaded(app, s, app.links[e]) else s
  }

  function TextOf(s: BrowserState, e: Locator): string {
    if e in s.text then s.text[e] else ""
  }

  function Cleared(s: BrowserState, e: Locator): BrowserState {
    s.(text := s.text[e := ""])
  }

  /** `send_keys` appends to what the element already holds. */
  function Typed(s: BrowserState, e: Locator, v: string): BrowserState {
    s.(text := s.text[e := TextOf(s, e) + v])
  }

  function Outlined(s: BrowserState, e: Locator): BrowserState {
    s.(outlined := s.outlined + [e])
  }

  /** Clearing an element and then typing leaves exactly the typed value in
      it, whatever it held before, and touches no other element. */
  lemma ClearedThenTyped(s: BrowserState, e: Locator, v: string)
    ensures Typed(Cleared(s, e), e, v) == s.(text := s.text[e := v])
    ensures TextOf(Typed(Cleared(s, e), e, v), e) == v
  {
    assert TextOf(Cleared(s, e), e) == "";
    assert "" + v == v;
  }

  /** The driver handle, shared by reference by every page of a chain. */
  class Driver {
    const app: WebApp
    var state: BrowserState

    constructor (app: WebApp, start: BrowserState)
      ensures this.app == app && state == start
    {
      this.app := app;
      state := start;
    }

    method Get(u: string)
      modifies this
      ensures state == Loaded(app, old(state), u)
    {
      state := Loaded(app, state, u);
    }

    method Click(e: Locator)
      modifies this
      ensures state == Clicked(app, old(state), e)
    {
      state := Clicked(app, state, e);
    }

    method Clear(e: Locator)
      modifies this
      ensures state == Cleared(old(state), e)
    {
      state := Cleared(state, e);
    }

    method SendKeys(e: Locator, v: string)
      modifies this
      ensures state == Typed(old(state), e, v)
    {
      state := Typed(state, e, v);
    }

    /** `execute_script` with the magenta-border script on element `e`. */
    method ExecuteOutlineScript(e: Locator)
      modifies this
      ensures state == Outlined(old(state), e)
    {
      state := Outlined(state, e);
    }
  }
}
