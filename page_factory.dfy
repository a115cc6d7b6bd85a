/** The page-object base class: construction checks (optional navigation,
    optional title check, every declared locator visible) and attribute
    access routed through the class's locators table. */
module PageFactory {
  import opened Wrappers
  import opened WebDriver

  /** Seconds a page waits for an element or a title (TestBase.DEFAULT_TIMEOUT). */
  const DEFAULT_TIMEOUT: nat := 20
  /** Pause after each element access, in seconds (ANIMATION_DELAY). */
  const ANIMATION_DELAY: nat := 1

  /** The exceptions the page objects raise, one constructor per cause. */
  datatype Failure =
    | LocatorsUndefined               // "A PageFactory class locators dict was not defined!"
    | NoSuchAlias(alias: string)      // "No page element with the alias ... was defined!"
    | WaitTimedOut(locator: Locator)  // TimeoutException out of _ensure_visible
    | TitleMismatch(expected: string) // POMException: expected page title not found
    | LocatorsNotFound                // POMException: one or more locators not found
    | MissingArgument(key: string)    // KeyError on the keyword arguments
    | NotADriver                      // the `driver` argument has no web driver
    | NotAUrl                         // driver.get refuses a `url` that is not a string
    | WrongArguments(arity: nat, given: nat) // TypeError: wrong number of arguments
    | UnknownPage(name: string)       // KeyError on the page registry

  /** What an action did: how it failed, if it did, and the browser state it left. */
  datatype Effect = Effect(failure: Option<Failure>, after: BrowserState)

  /** Python truthiness of an optional string: None and "" are false. */
  predicate Truthy(o: Option<string>) {
    o.Some? && o.value != ""
  }

  // ---------------------------------------------------------------------
  // Substrings: Python's `needle in hay` on strings

  ghost predicate OccursAt(hay: string, needle: string, i: int) {
    0 <= i && i + |needle| <= |hay| && hay[i..i + |needle|] == needle
  }

  /** `needle` is a prefix of some suffix of `hay`. */
  predicate Contains(hay: string, needle: string)
    decreases |hay|
  {
    needle <= hay || (hay != [] && Contains(hay[1..], needle))
  }

  /** `Contains` agrees with the positional definition of a substring. */
  lemma {:induction false} ContainsIffOccurs(hay: string, needle: string)
    ensures Contains(hay, needle) <==> exists i :: OccursAt(hay, needle, i)
    decreases |hay|
  {
    if needle <= hay {
      assert OccursAt(hay, needle, 0);
    } else if hay == [] {
      assert |needle| > 0;
    } else {
      ContainsIffOccurs(hay[1..], needle);
      assert !OccursAt(hay, needle, 0);
      forall i | 1 <= i
        ensures OccursAt(hay, needle, i) <==> OccursAt(hay[1..], needle, i - 1)
      {
        if i + |needle| <= |hay| {
          assert hay[1..][i - 1..i - 1 + |needle|] == hay[i..i + |needle|];
        }
      }
      if exists j :: OccursAt(hay[1..], needle, j) {
        var j :| OccursAt(hay[1..], needle, j);
        assert OccursAt(hay, needle, j + 1);
      }
    }
  }

  /** A string contains nothing longer than itself. */
  lemma {:induction false} ContainsFits(hay: string, needle: string)
    requires Contains(hay, needle)
    ensures |needle| <= |hay|
    decreases |hay|
  {
    if !(needle <= hay) {
      ContainsFits(hay[1..], needle);
    }
  }

  // ---------------------------------------------------------------------
  // Construction checks, as functions of the browser state

  /** The keys of `table` whose element is not visible. */
  function Missing(table: map<string, Locator>, visible: set<Locator>): set<string> {
    set key | key in table && table[key] !in visible
  }

  /** The browser state once the optional URL has been visited. */
  function Landing(app: WebApp, s: BrowserState, url: Option<string>): BrowserState {
    if Truthy(url) then Loaded(app, s, url.value) else s
  }

  /** Why construction fails on the (landed) state `s`, if it does: the
      title check comes first, then the locators. */
  function Rejection(table: map<string, Locator>, waitTitle: Option<string>, s: BrowserState): Option<Failure> {
    if Truthy(waitTitle) && !Contains(s.title, waitTitle.value) then Some(TitleMismatch(waitTitle.value))
    else if Missing(table, s.visible) != {} then Some(LocatorsNotFound)
    else None
  }

  /** A failed title check raises before any locator is examined, and a page
      rejects only for a reason it checked for. */
  lemma RejectionOrder(table: map<string, Locator>, waitTitle: Option<string>, s: BrowserState)
    ensures Truthy(waitTitle) && !Contains(s.title, waitTitle.value) ==>
              Rejection(table, waitTitle, s) == Some(TitleMismatch(waitTitle.value))
    ensures Rejection(table, waitTitle, s) == None <==>
              (!Truthy(waitTitle) || Contains(s.title, waitTitle.value)) &&
              (forall key :: key in table ==> table[key] in s.visible)
  {
    MissingEmptyIff(table, s.visible);
  }

  /** No key is missing exactly when every declared element is visible. */
  lemma MissingEmptyIff(table: map<string, Locator>, visible: set<Locator>)
    ensures Missing(table, visible) == {} <==> forall key :: key in table ==> table[key] in visible
  {
    if Missing(table, visible) != {} {
      var key :| key in Missing(table, visible);
    }
    if !forall key :: key in table ==> table[key] in visible {
      var key :| key in table && table[key] !in visible;
      assert key in Missing(table, visible);
    }
  }

  /** A page whose class declares no locators imposes only the title check. */
  lemma EmptyTableChecksTitleOnly(waitTitle: Option<string>, s: BrowserState)
    ensures Rejection(map[], waitTitle, s) ==
              if Truthy(waitTitle) && !Contains(s.title, waitTitle.value)
              then Some(TitleMismatch(waitTitle.value)) else None
  {
    assert Missing(map[], s.visible) == {};
  }

  /** A page titled "Google" never shows "Altavista": a title checker for it is rejected. */
  lemma AltavistaRejectedOnGoogle(s: BrowserState)
    requires s.title == "Google"
    ensures Rejection(map[], Some("Altavista"), s) == Some(TitleMismatch("Altavista"))
  {
    if Contains(s.title, "Altavista") {
      ContainsFits(s.title, "Altavista");
    }
  }

  /** ... while a checker for "Goog" on the same page succeeds. */
  lemma GoogAcceptedOnGoogle(s: BrowserState)
    requires s.title == "Google"
    ensures Rejection(map[], Some("Goog"), s) == None
  {
    assert "Goog" <= s.title;
    assert Missing(map[], s.visible) == {};
  }

  // ---------------------------------------------------------------------
  // Attribute access, as functions of the browser state

  /** The outcome of `__getattr__(alias)` on a page whose class declares `table`. */
  function Lookup(table: map<string, Locator>, alias: string, visible: set<Locator>): Result<Locator, Failure> {
    if alias == "locators" then Err(LocatorsUndefined)
    else if alias !in table then Err(NoSuchAlias(alias))
    else if table[alias] !in visible then Err(WaitTimedOut(table[alias]))
    else Ok(table[alias])
  }

  /** The effect of `highlight_web_element(e)` when highlighting is `on`. */
  function Highlighted(s: BrowserState, e: Locator, on: bool): BrowserState {
    if on then Outlined(s, e) else s
  }

  /** The effect on the browser of `__setattr__(alias, v)`. */
  function Assigned(table: map<string, Locator>, hl: bool, alias: string, v: string, s: BrowserState): Effect {
    if alias !in table then Effect(None, s)
    else if table[alias] !in s.visible then Effect(Some(WaitTimedOut(table[alias])), s)
    else Effect(None, Typed(Cleared(Highlighted(s, table[alias], hl), table[alias]), table[alias], v))
  }

  /** Assigning to a locator key and then reading it back finds the same,
      still visible element, holding exactly the assigned value. */
  lemma AssignedThenRead(table: map<string, Locator>, hl: bool, alias: string, v: string, s: BrowserState)
    requires alias in table && alias != "locators"
    requires Assigned(table, hl, alias, v, s).failure == None
    ensures Lookup(table, alias, Assigned(table, hl, alias, v, s).after.visible) == Ok(table[alias])
    ensures TextOf(Assigned(table, hl, alias, v, s).after, table[alias]) == v
    ensures Assigned(table, hl, alias, v, s).after.url == s.url
  {
    ClearedThenTyped(Highlighted(s, table[alias], hl), table[alias], v);
  }

  // ---------------------------------------------------------------------
  // The page object

  class Page {
    /** The class-level `locators` table: alias to locator. */
    const locators: map<string, Locator>
    const driver: Driver
    /** `_highlight`: outline every element the page touches. */
    const highlight: bool
    var timeout: nat
    /** `_delay`: 0 while the page is being constructed. */
    var delay: nat
    /** Ordinary attributes stored through `__setattr__`. */
    var attrs: map<string, string>

    /** The assignments at the start of `__init__`; the checks follow in `Open`. */
    constructor (locators: map<string, Locator>, base: Driver, timeout: nat, highlight: bool)
      ensures this.locators == locators && driver == base && this.highlight == highlight
      ensures this.timeout == timeout && delay == 0
      ensures attrs == map["name" := "POM"]
    {
      this.locators := locators;
      attrs := map["name" := "POM"];  // the logger prefix
      driver := base;
      this.timeout := DEFAULT_TIMEOUT;
      this.highlight := highlight;
      delay := 0;
      new;
      SetTimeout(timeout);
    }

    method SetTimeout(to: nat)
      modifies this`timeout
      ensures timeout == to
    {
      timeout := to;
    }

    method PreNavigate(url: string)
      modifies driver
      ensures driver.state == Loaded(driver.app, old(driver.state), url)
    {
      driver.Get(url);
    }

    /** Whether the title contains `expected`; a timeout yields false, not an exception. */
    method IsTitleContaining(expected: string) returns (found: bool)
      ensures found <==> exists i :: OccursAt(driver.state.title, expected, i)
    {
      ContainsIffOccurs(driver.state.title, expected);
      found := Contains(driver.state.title, expected);
    }

    /** Waits for every declared locator, without stopping at the first
        failure; `missing` holds the keys whose failure is logged. */
    method AreLocatorsLoaded() returns (loaded: bool, missing: set<string>)
      ensures missing == Missing(locators, driver.state.visible)
      ensures loaded <==> missing == {}
      ensures loaded <==> forall key :: key in locators ==> locators[key] in driver.state.visible
    {
      loaded, missing := true, {};
      var pending := locators.Keys;
      while pending != {}
        invariant pending <= locators.Keys
        invariant missing == Missing(locators, driver.state.visible) - pending
        invariant loaded <==> missing == {}
        decreases pending
      {
        var key :| key in pending;
        if locators[key] !in driver.state.visible {
          loaded := false;
          missing := missing + {key};
        }
        pending := pending - {key};
      }
      MissingEmptyIff(locators, driver.state.visible);
    }

    /** `highlight_web_element`: runs the outline script only when highlighting is on. */
    method Highlight(e: Locator)
      modifies driver
      ensures driver.state == Highlighted(old(driver.state), e, highlight)
      ensures driver.state.outlined == old(driver.state.outlined) + (if highlight then [e] else [])
    {
      if highlight {
        driver.ExecuteOutlineScript(e);
      }
    }

    /** `__getattr__(alias)`: the visible element of a locator key. */
    method Read(alias: string) returns (r: Result<Locator, Failure>)
      modifies driver
      ensures r == Lookup(locators, alias, old(driver.state.visible))
      ensures r.Ok? <==> alias != "locators" && alias in locators && locators[alias] in old(driver.state.visible)
      ensures driver.state == if r.Ok? then Highlighted(old(driver.state), r.value, highlight) else old(driver.state)
    {
      if alias == "locators" {
        return Err(LocatorsUndefined);
      }
      if alias !in locators {
        return Err(NoSuchAlias(alias));
      }
      var locator := locators[alias];
      // `_ensure_visible`: the wait succeeds exactly when the element is visible now
      if locator !in driver.state.visible {
        return Err(WaitTimedOut(locator));
      }
      if highlight {
        Highlight(locator);
      }
      r := Ok(locator);
    }

    /** `__setattr__(alias, value)`: a locator key clears its element and types
        the value into it; any other name becomes an ordinary attribute. */
    method Write(alias: string, value: string) returns (failure: Option<Failure>)
      modifies this`attrs, driver
      ensures Effect(failure, driver.state) == Assigned(locators, highlight, alias, value, old(driver.state))
      ensures alias in locators && failure == None ==> TextOf(driver.state, locators[alias]) == value
      ensures attrs == if alias in locators then old(attrs) else old(attrs)[alias := value]
    {
      if alias in locators {
        var locator := locators[alias];
        if locator !in driver.state.visible {
          return Some(WaitTimedOut(locator));
        }
        if highlight {
          Highlight(locator);
        }
        ghost var marked := driver.state;
        driver.Clear(locator);
        driver.SendKeys(locator, value);
        ClearedThenTyped(marked, locator, value);
        return None;
      }
      attrs := attrs[alias := value];
      failure := None;
    }
  }

  /** `PageFactory.__init__` of a class whose `locators` attribute is `declared`. */
  method Open(declared: Option<map<string, Locator>>, base: Driver, url: Option<string>,
              waitTitle: Option<string>, timeout: nat, highlight: bool, animationDelay: nat)
    returns (r: Result<Page, Failure>)
    modifies base
    ensures declared.None? ==> r == Err(LocatorsUndefined) && base.state == old(base.state)
    ensures declared.Some? ==> base.state == Landing(base.app, old(base.state), url)
    ensures declared.Some? ==> (r.Err? <==> Rejection(declared.value, waitTitle, base.state).Some?)
    ensures declared.Some? && r.Err? ==> r.error == Rejection(declared.value, waitTitle, base.state).value
    ensures r.Ok? ==> fresh(r.value) && r.value.locators == declared.value && r.value.driver == base
    ensures r.Ok? ==> r.value.timeout == timeout && r.value.highlight == highlight
    ensures r.Ok? ==> r.value.delay == animationDelay && r.value.attrs == map["name" := "POM"]
  {
    if declared.None? {
      return Err(LocatorsUndefined);
    }
    var page := new Page(declared.value, base, timeout, highlight);
    if Truthy(url) {
      page.PreNavigate(url.value);
    }
    if Truthy(waitTitle) {
      var found := page.IsTitleContaining(waitTitle.value);
      if !found {
        ContainsIffOccurs(base.state.title, waitTitle.value);
        return Err(TitleMismatch(waitTitle.value));
      }
      ContainsIffOccurs(base.state.title, waitTitle.value);
    }
    var loaded, _ := page.AreLocatorsLoaded();
    if !loaded {
      return Err(LocatorsNotFound);
    }
    page.delay := animationDelay;
    r := Ok(page);
  }

  /** `PageTitleChecker`: a page with no locators that only waits for its title. */
  method OpenTitleChecker(base: Driver, waitTitle: Option<string>, url: Option<string>, timeout: nat)
    returns (r: Result<Page, Failure>)
    modifies base
    ensures base.state == Landing(base.app, old(base.state), url)
    ensures r.Err? <==> Truthy(waitTitle) && !Contains(base.state.title, waitTitle.value)
    ensures r.Err? ==> r.error == TitleMismatch(waitTitle.value)
    ensures r.Ok? ==> fresh(r.value) && r.value.locators == map[] && r.value.timeout == timeout
    ensures r.Ok? ==> r.value.driver == base && r.value.highlight && r.value.delay == ANIMATION_DELAY
    ensures r.Ok? ==> r.value.attrs == map["name" := "POM"]
  {
    r := Open(Some(map[]), base, url, waitTitle, timeout, true, ANIMATION_DELAY);
    EmptyTableChecksTitleOnly(waitTitle, base.state);
  }
}
