# Page-object chaining, modelled in Dafny

This project models the core of a Selenium helper that implements the Page
Object Model. Each web page is a page object. Its interactive elements are
declared in a class-level `locators` table (alias to `(By, criteria)`), and
attribute reads and writes on those aliases drive the browser. On top of
that base sits a **page-chaining protocol**:

- Every page class registers itself by class name in a process-wide `MAP`.
- Its `next()` is wrapped by `@next_page("<SuccessorClass>")`. The wrapper
  runs the page's own action, throws its return value away, and builds
  `MAP["<SuccessorClass>"](**self._kwargs)`.
- A chaining page consumes a one-time `url` keyword argument and stores
  the rest of its keyword arguments as `_kwargs`.

The four demo pages form the cycle username → password → home → profile →
username. `login_to_profile` folds three of those hops into one call.

## Files

- `wrappers.dfy`: `Option` and `Result`.
- `webdriver.dfy`: the browser, abstracted.
  - `Driver` is a class shared by reference by every page of a chain.
  - Its `state` is a `BrowserState` value: URL, title, visible elements,
    text typed into each element, and the elements outlined by the
    highlight script.
  - The web application under test is a `WebApp` value. It gives the
    screen at each URL and the URL each clickable element leads to.
  - Waiting is instantaneous: an element "appears within the timeout"
    exactly when it is visible now.
- `page_factory.dfy`: `PageFactory.py`.
  - `Page` is a class with the fields that `__init__` sets.
  - `Open` runs the construction sequence and returns the page or the
    exception.
  - `Read` and `Write` are `__getattr__` and `__setattr__`.
  - Pure functions (`Rejection`, `Lookup`, `Assigned`) give each
    operation's outcome on a browser state. The methods are proved against
    them, and the lemmas are stated about them.
- `page_chains.dfy`: `PageChains.py`.
  - `PageKind` lists the four demo classes.
  - `Registry` is `MAP`.
  - `ChainPage` is a `ChainingPageFactory` instance: its class, its
    page-object part and its `_kwargs`. It is built by composition because
    the model has no inheritance.
  - `Build` is `ChainingPageFactory.__init__`.
  - `Next` is a wrapped `next()`, and `LoginToProfile` is
    `login_to_profile`.
  - `Advance`, `Run` and `Shortcut` are the pure specifications of one hop,
    several hops and the composite.

Three facts about the code shape the model:

- `next()` does not merge its arguments (username, password) into the
  stored context. They go to the action only.
- `ChainingPageFactory` forwards only `driver` and `url` to the base
  constructor. Every chaining page therefore uses the default timeout (20),
  highlighting (on) and animation delay (1). Any other keyword arguments
  are stored but have no effect.
- An unregistered successor raises `KeyError` from the `MAP` lookup. A page
  that fails to load, or a title that does not match, raises `POMException`.
  These are the `Failure` constructors `UnknownPage`, `LocatorsNotFound` and
  `TitleMismatch`.

## Model

| member | source | states |
|---|---|---|
| PageChains.WithPage | PageChains.py:12-15 | after registering class `k`, `MAP[k.__name__]` is `k`; every other name is present exactly when it was before, with the same class |
| PageChains.RegisterIdempotent | PageChains.py:14-15 | registering the same class a second time leaves the registry, so every lookup, unchanged |
| PageChains.RegisterKeepsFaithful | PageChains.py:14-15 | registration keeps every name mapped to the class of that name |
| PageChains.Registry.constructor | PageChains.py:12 | the registry starts empty, hence faithful: every name maps to the class of that name |
| PageChains.Registry.RegisterPage | PageChains.py:14-15 | `register_page` updates the registry exactly as `WithPage`, so the class is found under its own name; a faithful registry stays faithful |
| PageChains.Registry.RegisterDemoPages | PageChains.py:75-134 | the four module-level registrations, in source order; from a faithful registry, every demo class is then found under its name |
| PageChains.DemoPagesRegistered | PageChains.py:75-134 | after the demo registrations, each demo class is found under its name and the registry is faithful |
| PageChains.DemoRegistryComplete | PageChains.py:75-134 | starting from the empty `MAP`, all four demo classes are registered |
| PageChains.ClassNameInjective | PageChains.py:43-119 | the four page classes have distinct names, so a name identifies one class |
| PageChains.DeclaredNamesSuccessor | PageChains.py:50-125 | each `@next_page` argument is the name of the intended successor class |
| PageChains.CycleOfFour | PageChains.py:50-125 | the successor relation is a single 4-cycle: four steps return to the start and fewer never do |
| PageChains.WithoutUrl | PageChains.py:35-37 | the stored `_kwargs` has no `url`; every other argument is kept with its value and nothing is added |
| PageChains.WithoutUrlKeeps | PageChains.py:23-37 | a context without `url`, as every successor receives, is stored unchanged |
| PageChains.Build | PageChains.py:28-37 | missing `driver` → KeyError; `url` forwarded only when present and navigated only when truthy; the page is built and loaded or the check's exception is raised; stored context = arguments minus `url`; defaults for timeout and delay |
| PageChains.AdvanceContract | PageChains.py:19-24 | the action runs first; if it raises, its exception is the result and nothing is built; an unregistered successor fails after the action's effects; with a faithful registry a success is always the declared successor class |
| PageChains.RunFollowsSuccessors | PageChains.py:19-24 | with a faithful registry, `n` successful `next()` calls reach the `n`-th successor class |
| PageChains.DemoCycleCloses | PageChains.py:50-125 | four successful `next()` calls from a username page return a username page |
| PageChains.DemoSiteHop | PageChains.py:43-131 | on a site laid out as the demo expects, each page's `next()` succeeds and lands on its successor's screen |
| PageChains.DemoSiteCycle | PageChains.py:43-131 | on that site the whole username → password → home → profile → username cycle succeeds and ends on the login screen |
| PageChains.ShortcutMatchesHops | PageChains.py:59-72 | with a faithful registry, `login_to_profile(u, p)` has the same outcome, class and browser state as `next(u)`, `next(p)`, `next()`, and a success is a profile page |
| PageChains.ChainPage.constructor | PageChains.py:28-37 | a chaining page built on a loaded page object of its class's table, with highlighting on and a context holding its driver and no `url`, is valid |
| PageChains.ChainPage.Press | PageChains.py:112-131 | reading a button alias and clicking it: the read's exception, or the click's effect on the browser |
| PageChains.ChainPage.Submit | PageChains.py:55-92 | `_submit`: types into the field, then presses the button; stops at the first exception; no ordinary attribute is stored |
| PageChains.ChainPage.Act | PageChains.py:50-128 | a page's own `next()` body: wrong argument count raises before anything happens, otherwise the class's submit or click |
| PageChains.ChainPage.Next | PageChains.py:19-24 | wrapped `next()`: outcome and browser state as `Advance`; the result is a fresh, valid page of class `MAP[next_]` with the predecessor's context and the same driver; with a faithful registry that class is the declared successor |
| PageChains.ChainPage.HopThrice | PageChains.py:68-72 | the body of `login_to_profile`: `next(u)`, `next(p)`, `next()` in turn, stopping at the first exception; outcome and browser state as `Run` over those three argument lists |
| PageChains.ChainPage.LoginToProfile | PageChains.py:59-72 | the composite: three hops, then the decorator's own `MAP["DemoProfilePageV2"]` built from the username page's context; outcome and browser state as `Shortcut`; with a faithful registry a success is a profile page |
| PageFactory.Open | PageFactory.py:26-58 | a class without `locators` raises before anything; navigation only for a truthy `url`, before any check; a title check only for a truthy `wait_title_contains`, and its failure comes before the locator check; success gives the given timeout and highlight, `_delay` = `animation_delay` |
| PageFactory.RejectionOrder | PageFactory.py:50-57 | a failed title check is the exception whatever the locators; construction succeeds iff the title check passes (or is not asked for) and every declared element is visible |
| PageFactory.Page.constructor | PageFactory.py:42-48 | the page is bound to the base's driver, `timeout` equals the argument after `set_timeout`, and `_delay` is 0 during construction |
| PageFactory.Page.SetTimeout | PageFactory.py:60-61 | `timeout` becomes the given value |
| PageFactory.Page.PreNavigate | PageFactory.py:63-65 | the driver loads the URL |
| PageFactory.Page.IsTitleContaining | PageFactory.py:67-75 | true iff the expected text occurs somewhere in the title; otherwise false rather than an exception |
| PageFactory.ContainsIffOccurs | PageFactory.py:67-72 | the substring test used for titles holds iff the text occurs at some position |
| PageFactory.Page.AreLocatorsLoaded | PageFactory.py:77-92 | true iff every declared element is visible; all keys are checked and the missing (logged) ones are exactly the invisible keys; an empty table yields true |
| PageFactory.Page.Highlight | PageFactory.py:144-151 | the outline script runs on the element only when highlighting is on |
| PageFactory.Page.Read | PageFactory.py:109-130 | `locators` → the undefined-locators exception; other unknown names → no-such-alias; a locator key → its element when visible (highlighted if on), else the wait's timeout |
| PageFactory.Page.Write | PageFactory.py:132-142 | a locator key clears its element and types the value, storing no attribute; any other name is stored as an ordinary attribute without touching the browser |
| WebDriver.ClearedThenTyped | PageFactory.py:139-140 | clearing an element and then typing leaves exactly the typed value, whatever the element held before |
| PageFactory.AssignedThenRead | PageFactory.py:120-140 | after a successful write to a locator key, reading that alias returns the same element, which holds exactly the value written |
| PageFactory.OpenTitleChecker | PageFactory.py:153-164 | `PageTitleChecker` raises iff a truthy expected title is not in the (possibly navigated) title, and never for elements; a success is a fresh page on the base driver with no locators, the given timeout, highlighting on and the default animation delay |
| PageFactory.EmptyTableChecksTitleOnly | PageFactory.py:153-164 | a page with an empty locator table is rejected only by its title check |
| PageFactory.AltavistaRejectedOnGoogle | main.py:145-150 | a checker for "Altavista" on a page titled "Google" raises the title exception |
| PageFactory.GoogAcceptedOnGoogle | main.py:151 | a checker for "Goog" on that page succeeds |

## Left out

- Logging (`Logger.log`), the screenshot and temporary file taken by `POMException`, and `time.sleep` delays. A failure is an error value carrying its cause.
- `_ensure_visible` is not a separate member: the wait succeeds exactly when the element is visible in the current state, and `Read` and `Write` test that directly.
- Real waiting (`WebDriverWait` and its timeout) is not modelled. The timeout is a number the page stores. Visibility and titles are read from the current browser state.
- Scrolling to an element (`ActionChains.move_to_element`) has no effect in the model.
- The test fixtures (`TestBase.py`), the helper web server (`WebServer.py`), the `WP*` pages and tests in `main.py`, and `WebApplicationStub` are not part of this model. `main.py` is used only as evidence for `PageTitleChecker`.
- PageFactory.Page.Read: models only the `__getattr__` fallback. Python's ordinary lookup of existing attributes, which runs first, is not modelled.
- PageFactory.Page.Write: the value is a string. Non-string values assigned to ordinary attributes are not modelled. A name that is not a locator key is stored in `attrs`, apart from the page's own fields. So writing `timeout`, `_highlight`, `_delay`, `driver`, `_kwargs` or `locators` does not change those fields. In particular, assigning a falsy `_highlight` does not turn highlighting off for later reads and writes.
- PageFactory.Open: `__init__` is split into the constructor, which makes the assignments, and `Open`, which makes the checks. A page whose checks fail is not returned.
- Locator keys that clash with the page's own attribute names (`driver`, `timeout`, `_highlight`, `_delay`, `_kwargs`, `name`) are not modelled. The model keeps those names apart from the locator table: the first four are fields of `Page`, `name` is an entry of `Page.attrs`, and `_kwargs` is `ChainPage.context`.
- `ChainingPageFactory.next` on the base class is not modelled. It raises (a `TypeError`, since `NotImplemented` is not callable), and no registered page uses it.
- `register_page` of a class that is not one of the four chaining pages is not modelled. The registry holds only `PageKind`s.
- Keyword-argument values are a driver handle, a string or `None`. Any other Python value is not modelled.
- PageChains.ChainPage.Next: `next()` takes positional string arguments only. Keyword calls such as `next(username="u")`, which the wrapper forwards, are not modelled.
