/** Page chaining: a registry from class name to page class, the `next_page`
    wrapper that makes every `next()` yield an instance of one declared
    successor class, the chaining constructor that consumes a one-time
    `url`, the four demo pages and the `login_to_profile` composite. */
module PageChains {
  import opened Wrappers
  import opened WebDriver
  import opened PageFactory

  // ---------------------------------------------------------------------
  // The demo page classes

  /** The four chaining page classes. */
  datatype PageKind = LoginUsername | LoginPassword | Home | Profile

  /** The class's `__name__`, its key in the registry. */
  function ClassName(k: PageKind): string {
    match k
    case LoginUsername => "DemoLoginPageUsernameV2"
    case LoginPassword => "DemoLoginPagePasswordV2"
    case Home => "DemoHomePageV2"
    case Profile => "DemoProfilePageV2"
  }

  /** The name given to `@next_page` on the class's `next()`. */
  function Declared(k: PageKind): string {
    match k
    case LoginUsername => "DemoLoginPagePasswordV2"
    case LoginPassword => "DemoHomePageV2"
    case Home => "DemoProfilePageV2"
    case Profile => "DemoLoginPageUsernameV2"
  }

  /** The page class a `next()` is meant to reach. */
  function Successor(k: PageKind): PageKind {
    match k
    case LoginUsername => LoginPassword
    case LoginPassword => Home
    case Home => Profile
    case Profile => LoginUsername
  }

  /** The class's `locators` table. */
  function Table(k: PageKind): map<string, Locator> {
    match k
    case LoginUsername =>
      map["editUserName" := Locator(Id, "usernameOrEmail"), "btnContinue" := Locator(Name, "Continue")]
    case LoginPassword =>
      map["editPassword" := Locator(Id, "password"), "btnLogin" := Locator(Name, "LogIn")]
    case Home => map["btnProfile" := Locator(Name, "Profile")]
    case Profile => map["btnLogout" := Locator(Name, "LogOut")]
  }

  /** How many positional arguments the class's `next()` takes. */
  function Arity(k: PageKind): nat {
    if k == LoginUsername || k == LoginPassword then 1 else 0
  }

  /** Class names identify classes. */
  lemma ClassNameInjective(j: PageKind, k: PageKind)
    ensures ClassName(j) == ClassName(k) ==> j == k
  {
  }

  /** Each decorator names the class of the intended successor. */
  lemma DeclaredNamesSuccessor(k: PageKind)
    ensures Declared(k) == ClassName(Successor(k))
  {
  }

  /** The successor applied `n` times. */
  function Successors(k: PageKind, n: nat): PageKind
    decreases n
  {
    if n == 0 then k else Successors(Successor(k), n - 1)
  }

  /** Username, Password, Home, Profile, and back to Username. */
  lemma CycleOfFour(k: PageKind)
    ensures Successors(k, 4) == k
    ensures forall n :: 0 < n < 4 ==> Successors(k, n) != k
  {
    assert Successors(k, 1) == Successor(k);
    assert Successors(k, 2) == Successor(Successor(k));
    assert Successors(k, 3) == Successor(Successor(Successor(k)));
  }

  // ---------------------------------------------------------------------
  // The registry (MAP)

  /** The registry after `register_page` of class `k`. */
  function WithPage(m: map<string, PageKind>, k: PageKind): (r: map<string, PageKind>)
    ensures ClassName(k) in r && r[ClassName(k)] == k
    ensures forall name :: name != ClassName(k) ==> (name in r <==> name in m)
    ensures forall name :: name != ClassName(k) && name in m ==> r[name] == m[name]
  {
    m[ClassName(k) := k]
  }

  /** Registering a class again changes no lookup. */
  lemma RegisterIdempotent(m: map<string, PageKind>, k: PageKind)
    ensures WithPage(WithPage(m, k), k) == WithPage(m, k)
  {
  }

  /** Every name maps to the class of that name. */
  ghost predicate Faithful(m: map<string, PageKind>) {
    forall name :: name in m ==> ClassName(m[name]) == name
  }

  /** Registration keeps the registry faithful. */
  lemma RegisterKeepsFaithful(m: map<string, PageKind>, k: PageKind)
    requires Faithful(m)
    ensures Faithful(WithPage(m, k))
  {
  }

  /** The registry after the module-level registrations of the demo pages. */
  function DemoPages(m: map<string, PageKind>): map<string, PageKind> {
    WithPage(WithPage(WithPage(WithPage(m, LoginUsername), LoginPassword), Home), Profile)
  }

  /** After the demo registrations, from an empty or faithful registry, every
      demo class is found under its name and the registry is faithful. */
  lemma DemoPagesRegistered(m: map<string, PageKind>)
    requires Faithful(m)
    ensures Faithful(DemoPages(m))
    ensures forall k: PageKind :: ClassName(k) in DemoPages(m) && DemoPages(m)[ClassName(k)] == k
  {
    RegisterKeepsFaithful(m, LoginUsername);
    RegisterKeepsFaithful(WithPage(m, LoginUsername), LoginPassword);
    RegisterKeepsFaithful(WithPage(WithPage(m, LoginUsername), LoginPassword), Home);
    RegisterKeepsFaithful(WithPage(WithPage(WithPage(m, LoginUsername), LoginPassword), Home), Profile);
  }

  /** The process-wide `MAP`. */
  class Registry {
    var pages: map<string, PageKind>

    /** Every registered name maps to the class of that name. */
    ghost predicate Valid()
      reads this
    {
      Faithful(pages)
    }

    constructor ()
      ensures pages == map[]
      ensures Valid()
    {
      pages := map[];
    }

    method RegisterPage(k: PageKind)
      modifies this
      ensures pages == WithPage(old(pages), k)
      ensures pages[ClassName(k)] == k
      ensures old(Valid()) ==> Valid()
    {
      if Valid() {
        RegisterKeepsFaithful(pages, k);
      }
      pages := pages[ClassName(k) := k];
    }

    /** The `register_page` calls that follow each demo class definition. */
    method RegisterDemoPages()
      modifies this
      ensures pages == DemoPages(old(pages))
      ensures old(Valid()) ==> Valid()
      ensures old(Valid()) ==> forall k: PageKind :: ClassName(k) in pages && pages[ClassName(k)] == k
    {
      if Valid() {
        DemoPagesRegistered(pages);
      }
      RegisterPage(LoginUsername);
      RegisterPage(LoginPassword);
      RegisterPage(Home);
      RegisterPage(Profile);
    }
  }

  // ---------------------------------------------------------------------
  // The chain context (_kwargs)

  /** A keyword argument value: the driver handle, a string, or None. */
  datatype Arg = Handle(driver: Driver) | Text(text: string) | Nothing

  type Context = map<string, Arg>

  /** The context a chaining page stores: its arguments minus `url`. */
  function WithoutUrl(kwargs: Context): (r: Context)
    ensures "url" !in r
    ensures forall key :: key in kwargs && key != "url" ==> key in r && r[key] == kwargs[key]
    ensures forall key :: key in r ==> key in kwargs
  {
    kwargs - {"url"}
  }

  /** A context without `url` is stored unchanged. */
  lemma WithoutUrlKeeps(kwargs: Context)
    requires "url" !in kwargs
    ensures WithoutUrl(kwargs) == kwargs
  {
  }

  /** The driver the `driver` argument provides, if it is a handle. */
  function DriverOf(kwargs: Context): Option<Driver> {
    if "driver" in kwargs && kwargs["driver"].Handle? then Some(kwargs["driver"].driver) else None
  }

  function Handles(kwargs: Context): set<Driver> {
    if DriverOf(kwargs).Some? then {DriverOf(kwargs).value} else {}
  }

  /** The `url` argument as PageFactory receives it. */
  function UrlOf(kwargs: Context): Result<Option<string>, Failure> {
    if "url" !in kwargs then Ok(None)
    else match kwargs["url"]
      case Text(u) => Ok(Some(u))
      case Nothing => Ok(None)
      case Handle(_) => Err(NotAUrl)
  }

  // ---------------------------------------------------------------------
  // One hop of a chain, as a function of the browser state

  /** The result of one `next()`: the successor's class or the exception,
      and the browser state left behind. */
  datatype Hop = Hop(result: Result<PageKind, Failure>, after: BrowserState)

  /** Construction of a chaining page on a context without `url`. */
  function Constructed(k: PageKind, s: BrowserState): Result<PageKind, Failure> {
    match Rejection(Table(k), None, s)
    case Some(e) => Err(e)
    case None => Ok(k)
  }

  /** Reading `button` and clicking it. */
  function Tapped(table: map<string, Locator>, hl: bool, button: string, app: WebApp, s: BrowserState): Effect {
    match Lookup(table, button, s.visible)
    case Err(e) => Effect(Some(e), s)
    case Ok(e) => Effect(None, Clicked(app, Highlighted(s, e, hl), e))
  }

  /** Assigning `v` to `field`, then reading `button` and clicking it. */
  function Submitted(table: map<string, Locator>, hl: bool, field: string, button: string, v: string,
                     app: WebApp, s: BrowserState): Effect
  {
    var typed := Assigned(table, hl, field, v, s);
    if typed.failure.Some? then typed else Tapped(table, hl, button, app, typed.after)
  }

  /** The body of the class's own `next()`, run with positional `args`. */
  function Action(k: PageKind, args: seq<string>, hl: bool, app: WebApp, s: BrowserState): Effect {
    if |args| != Arity(k) then Effect(Some(WrongArguments(Arity(k), |args|)), s)
    else match k
      case LoginUsername => Submitted(Table(k), hl, "editUserName", "btnContinue", args[0], app, s)
      case LoginPassword => Submitted(Table(k), hl, "editPassword", "btnLogin", args[0], app, s)
      case Home => Tapped(Table(k), hl, "btnProfile", app, s)
      case Profile => Tapped(Table(k), hl, "btnLogout", app, s)
  }

  /** The wrapped `next()`: the action, then `MAP[next_](**self._kwargs)`. */
  function Advance(reg: map<string, PageKind>, k: PageKind, args: seq<string>, hl: bool,
                   app: WebApp, s: BrowserState): Hop
  {
    var acted := Action(k, args, hl, app, s);
    if acted.failure.Some? then Hop(Err(acted.failure.value), acted.after)
    else if Declared(k) !in reg then Hop(Err(UnknownPage(Declared(k))), acted.after)
    else Hop(Constructed(reg[Declared(k)], acted.after), acted.after)
  }

  /** The wrapper's promises: a failed action constructs nothing; an
      unregistered successor fails only after the action ran; with a
      faithful registry a success is always the declared successor. */
  lemma AdvanceContract(reg: map<string, PageKind>, k: PageKind, args: seq<string>, hl: bool,
                        app: WebApp, s: BrowserState)
    ensures Advance(reg, k, args, hl, app, s).after == Action(k, args, hl, app, s).after
    ensures Action(k, args, hl, app, s).failure.Some? ==>
              Advance(reg, k, args, hl, app, s).result == Err(Action(k, args, hl, app, s).failure.value)
    ensures Action(k, args, hl, app, s).failure.None? && Declared(k) !in reg ==>
              Advance(reg, k, args, hl, app, s).result == Err(UnknownPage(Declared(k)))
    ensures Faithful(reg) && Advance(reg, k, args, hl, app, s).result.Ok? ==>
              Advance(reg, k, args, hl, app, s).result.value == Successor(k)
  {
    if Faithful(reg) && Declared(k) in reg {
      DeclaredNamesSuccessor(k);
      ClassNameInjective(reg[Declared(k)], Successor(k));
    }
  }

  /** Successive `next()` calls, one argument list per hop, stopping at the first exception. */
  function Run(reg: map<string, PageKind>, k: PageKind, argss: seq<seq<string>>, hl: bool,
               app: WebApp, s: BrowserState): Hop
    decreases |argss|
  {
    if argss == [] then Hop(Ok(k), s)
    else
      var hop := Advance(reg, k, argss[0], hl, app, s);
      if hop.result.Err? then hop
      else Run(reg, hop.result.value, argss[1..], hl, app, hop.after)
  }

  /** With a faithful registry, `n` successful hops reach the `n`-th successor. */
  lemma {:induction false} RunFollowsSuccessors(reg: map<string, PageKind>, k: PageKind,
                                                argss: seq<seq<string>>, hl: bool, app: WebApp, s: BrowserState)
    requires Faithful(reg)
    ensures Run(reg, k, argss, hl, app, s).result.Ok? ==>
              Run(reg, k, argss, hl, app, s).result.value == Successors(k, |argss|)
    decreases |argss|
  {
    if argss != [] {
      var hop := Advance(reg, k, argss[0], hl, app, s);
      AdvanceContract(reg, k, argss[0], hl, app, s);
      if hop.result.Ok? {
        RunFollowsSuccessors(reg, Successor(k), argss[1..], hl, app, hop.after);
      }
    }
  }

  /** Four successful hops from the username page return to the username page. */
  lemma DemoCycleCloses(reg: map<string, PageKind>, username: string, password: string, hl: bool,
                        app: WebApp, s: BrowserState)
    requires Faithful(reg)
    ensures Run(reg, LoginUsername, [[username], [password], [], []], hl, app, s).result.Ok? ==>
              Run(reg, LoginUsername, [[username], [password], [], []], hl, app, s).result.value == LoginUsername
  {
    RunFollowsSuccessors(reg, LoginUsername, [[username], [password], [], []], hl, app, s);
    CycleOfFour(LoginUsername);
  }

  /** A web application laid out as the demo pages expect: each button
      leads to the screen of the next page in the cycle. */
  function DemoSite(): WebApp {
    WebApp(
      map[
        "login" := Screen("Log In", {Locator(Id, "usernameOrEmail"), Locator(Name, "Continue")}),
        "password" := Screen("Log In", {Locator(Id, "password"), Locator(Name, "LogIn")}),
        "home" := Screen("Home", {Locator(Name, "Profile")}),
        "profile" := Screen("Profile", {Locator(Name, "LogOut")})],
      map[
        Locator(Name, "Continue") := "password",
        Locator(Name, "LogIn") := "home",
        Locator(Name, "Profile") := "profile",
        Locator(Name, "LogOut") := "login"])
  }

  /** The screen of the demo site each page class belongs to. */
  function DemoUrl(k: PageKind): string {
    match k
    case LoginUsername => "login"
    case LoginPassword => "password"
    case Home => "home"
    case Profile => "profile"
  }

  /** On the demo site, a page whose screen is showing advances to its
      successor, which lands on its own screen. */
  lemma DemoSiteHop(reg: map<string, PageKind>, k: PageKind, args: seq<string>, s: BrowserState)
    requires forall j: PageKind :: ClassName(j) in reg && reg[ClassName(j)] == j
    requires |args| == Arity(k)
    requires s.visible == ScreenAt(DemoSite(), DemoUrl(k)).shows
    ensures Advance(reg, k, args, true, DemoSite(), s).result == Ok(Successor(k))
    ensures Advance(reg, k, args, true, DemoSite(), s).after.url == DemoUrl(Successor(k))
    ensures Advance(reg, k, args, true, DemoSite(), s).after.visible == ScreenAt(DemoSite(), DemoUrl(Successor(k))).shows
  {
    var app := DemoSite();
    var acted := Action(k, args, true, app, s);
    assert acted.failure == None && acted.after.url == DemoUrl(Successor(k)) by {
      match k
      case LoginUsername =>
        var typed := Assigned(Table(k), true, "editUserName", args[0], s);
        assert typed.failure == None && typed.after.visible == s.visible;
      case LoginPassword =>
        var typed := Assigned(Table(k), true, "editPassword", args[0], s);
        assert typed.failure == None && typed.after.visible == s.visible;
      case Home =>
      case Profile =>
    }
    DeclaredNamesSuccessor(k);
    MissingEmptyIff(Table(Successor(k)), acted.after.visible);
  }

  /** On the demo site, from its login screen, with every demo class
      registered, the four hops all succeed and come back to the username
      page on the login screen. */
  lemma DemoSiteCycle(reg: map<string, PageKind>, username: string, password: string, s: BrowserState)
    requires forall j: PageKind :: ClassName(j) in reg && reg[ClassName(j)] == j
    requires s.visible == ScreenAt(DemoSite(), "login").shows
    ensures Run(reg, LoginUsername, [[username], [password], [], []], true, DemoSite(), s).result
            == Ok(LoginUsername)
    ensures Run(reg, LoginUsername, [[username], [password], [], []], true, DemoSite(), s).after.url
            == "login"
  {
    var app := DemoSite();
    DemoSiteHop(reg, LoginUsername, [username], s);
    var h1 := Advance(reg, LoginUsername, [username], true, app, s);
    DemoSiteHop(reg, LoginPassword, [password], h1.after);
    var h2 := Advance(reg, LoginPassword, [password], true, app, h1.after);
    DemoSiteHop(reg, Home, [], h2.after);
    var h3 := Advance(reg, Home, [], true, app, h2.after);
    DemoSiteHop(reg, Profile, [], h3.after);
    var h4 := Advance(reg, Profile, [], true, app, h3.after);
    calc {
      Run(reg, LoginUsername, [[username], [password], [], []], true, app, s);
      { assert [[username], [password], [], []][1..] == [[password], [], []]; }
      Run(reg, LoginPassword, [[password], [], []], true, app, h1.after);
      { assert [[password], [], []][1..] == [[], []]; }
      Run(reg, Home, [[], []], true, app, h2.after);
      { var rest: seq<seq<string>> := [[], []]; assert rest[1..] == [[]]; }
      Run(reg, Profile, [[]], true, app, h3.after);
      Hop(Ok(LoginUsername), h4.after);
    }
  }

  /** The demo registrations register every demo class under its name. */
  lemma DemoRegistryComplete()
    ensures forall j: PageKind :: ClassName(j) in DemoPages(map[]) && DemoPages(map[])[ClassName(j)] == j
  {
    DemoPagesRegistered(map[]);
  }

  /** Three hops in a row: the run stops at the first hop that fails, and
      otherwise ends with the third hop's outcome and browser state. */
  lemma RunThreeHops(reg: map<string, PageKind>, k: PageKind, a: seq<string>, b: seq<string>, c: seq<string>,
                     hl: bool, app: WebApp, s: BrowserState)
    ensures var h1 := Advance(reg, k, a, hl, app, s);
            Run(reg, k, [a, b, c], hl, app, s) ==
              if h1.result.Err? then h1
              else
                var h2 := Advance(reg, h1.result.value, b, hl, app, h1.after);
                if h2.result.Err? then h2
                else Advance(reg, h2.result.value, c, hl, app, h2.after)
  {
    var h1 := Advance(reg, k, a, hl, app, s);
    if h1.result.Ok? {
      assert [a, b, c][1..] == [b, c];
      var h2 := Advance(reg, h1.result.value, b, hl, app, h1.after);
      if h2.result.Ok? {
        assert [b, c][1..] == [c];
        var h3 := Advance(reg, h2.result.value, c, hl, app, h2.after);
        assert Run(reg, h2.result.value, [c], hl, app, h2.after) == h3 by {
          assert [c][1..] == [];
          if h3.result.Ok? {
            assert Run(reg, h3.result.value, [], hl, app, h3.after) == Hop(Ok(h3.result.value), h3.after);
          }
        }
      }
    }
  }

  /** `login_to_profile(u, p)`: three hops, whose result the decorator drops,
      then `MAP["DemoProfilePageV2"]` built on the state they left. */
  function Shortcut(reg: map<string, PageKind>, username: string, password: string, hl: bool,
                    app: WebApp, s: BrowserState): Hop
  {
    var hops := Run(reg, LoginUsername, [[username], [password], []], hl, app, s);
    if hops.result.Err? then hops
    else if Declared(Home) !in reg then Hop(Err(UnknownPage(Declared(Home))), hops.after)
    else Hop(Constructed(reg[Declared(Home)], hops.after), hops.after)
  }

  /** With a faithful registry the composite ends exactly where `next(u)`,
      `next(p)`, `next()` end: same outcome, same class, same browser state. */
  lemma ShortcutMatchesHops(reg: map<string, PageKind>, username: string, password: string, hl: bool,
                            app: WebApp, s: BrowserState)
    requires Faithful(reg)
    ensures Shortcut(reg, username, password, hl, app, s) ==
            Run(reg, LoginUsername, [[username], [password], []], hl, app, s)
    ensures Shortcut(reg, username, password, hl, app, s).result.Ok? ==>
              Shortcut(reg, username, password, hl, app, s).result.value == Profile
  {
    var h1 := Advance(reg, LoginUsername, [username], hl, app, s);
    AdvanceContract(reg, LoginUsername, [username], hl, app, s);
    if h1.result.Ok? {
      var h2 := Advance(reg, LoginPassword, [password], hl, app, h1.after);
      AdvanceContract(reg, LoginPassword, [password], hl, app, h1.after);
      if h2.result.Ok? {
        var h3 := Advance(reg, Home, [], hl, app, h2.after);
        AdvanceContract(reg, Home, [], hl, app, h2.after);
        assert [[username], [password], []][1..] == [[password], []];
        assert [[password], []][1..] == [[]];
        assert Run(reg, LoginUsername, [[username], [password], []], hl, app, s)
            == Run(reg, Home, [[]], hl, app, h2.after);
        if h3.result.Ok? {
          assert Run(reg, Home, [[]], hl, app, h2.after) == Hop(Ok(Profile), h3.after);
        }
      }
    }
  }

  // ---------------------------------------------------------------------
  // Chaining page objects

  /** A `ChainingPageFactory` instance: its class, its page-object part and
      its stored `_kwargs`. */
  class ChainPage {
    const kind: PageKind
    const page: Page
    const context: Context

    /** The constructor's guarantees, kept for the page's lifetime. */
    ghost predicate Valid() {
      && page.locators == Table(kind)
      && page.highlight
      && "url" !in context
      && "driver" in context
      && context["driver"] == Handle(page.driver)
    }

    /** Binds a loaded page object to its class and stored context; `Build`
        is the only caller, and it establishes the requirements. */
    constructor (kind: PageKind, page: Page, context: Context)
      requires page.locators == Table(kind) && page.highlight
      requires "url" !in context && "driver" in context && context["driver"] == Handle(page.driver)
      ensures this.kind == kind && this.page == page && this.context == context
      ensures Valid()
    {
      this.kind := kind;
      this.page := page;
      this.context := context;
    }

    /** Reads `button` and clicks it (`_open_profile`, `_logout`, and the end of `_submit`). */
    method Press(button: string) returns (failure: Option<Failure>)
      modifies page.driver
      ensures Effect(failure, page.driver.state) ==
              Tapped(page.locators, page.highlight, button, page.driver.app, old(page.driver.state))
    {
      var element := page.Read(button);
      if element.Err? {
        return Some(element.error);
      }
      page.driver.Click(element.value);
      failure := None;
    }

    /** `_submit(value)`: types `value` into `field`, then clicks `button`. */
    method Submit(field: string, button: string, value: string) returns (failure: Option<Failure>)
      requires field in page.locators
      modifies page`attrs, page.driver
      ensures Effect(failure, page.driver.state) ==
              Submitted(page.locators, page.highlight, field, button, value, page.driver.app, old(page.driver.state))
      ensures page.attrs == old(page.attrs)
    {
      failure := page.Write(field, value);
      if failure.Some? {
        return;
      }
      failure := Press(button);
    }

    /** The class's own `next(*args)`, before the decorator's lookup. */
    method Act(args: seq<string>) returns (failure: Option<Failure>)
      requires Valid()
      modifies page`attrs, page.driver
      ensures Effect(failure, page.driver.state) ==
              Action(kind, args, page.highlight, page.driver.app, old(page.driver.state))
      ensures page.attrs == old(page.attrs)
    {
      if |args| != Arity(kind) {
        return Some(WrongArguments(Arity(kind), |args|));
      }
      match kind
      case LoginUsername => failure := Submit("editUserName", "btnContinue", args[0]);
      case LoginPassword => failure := Submit("editPassword", "btnLogin", args[0]);
      case Home => failure := Press("btnProfile");
      case Profile => failure := Press("btnLogout");
    }

    /** `next(*args)` as wrapped by `@next_page(Declared(kind))`. */
    method Next(reg: Registry, args: seq<string>) returns (r: Result<ChainPage, Failure>)
      requires Valid()
      modifies page`attrs, page.driver
      ensures KindOf(r) == Advance(reg.pages, kind, args, page.highlight, page.driver.app, old(page.driver.state)).result
      ensures page.driver.state == Advance(reg.pages, kind, args, page.highlight, page.driver.app, old(page.driver.state)).after
      ensures page.attrs == old(page.attrs)
      ensures r.Ok? ==> fresh(r.value) && fresh(r.value.page) && r.value.Valid()
      ensures r.Ok? ==> r.value.context == context && r.value.page.driver == page.driver
      ensures reg.Valid() && r.Ok? ==> r.value.kind == Successor(kind)
    {
      AdvanceContract(reg.pages, kind, args, page.highlight, page.driver.app, page.driver.state);
      var failure := Act(args);
      if failure.Some? {
        return Err(failure.value);
      }
      var name := Declared(kind);
      if name !in reg.pages {
        return Err(UnknownPage(name));
      }
      WithoutUrlKeeps(context);
      r := Build(reg.pages[name], context);
    }

    /** The three hops `next(username)`, `next(password)`, `next()` of
        `login_to_profile`, from a username page. */
    method HopThrice(reg: Registry, username: string, password: string) returns (r: Result<ChainPage, Failure>)
      requires Valid() && kind == LoginUsername
      modifies page`attrs, page.driver
      ensures KindOf(r) == Run(reg.pages, LoginUsername, [[username], [password], []], page.highlight, page.driver.app, old(page.driver.state)).result
      ensures page.driver.state == Run(reg.pages, LoginUsername, [[username], [password], []], page.highlight, page.driver.app, old(page.driver.state)).after
      ensures page.attrs == old(page.attrs)
    {
      ghost var s0 := page.driver.state;
      ghost var app := page.driver.app;
      RunThreeHops(reg.pages, LoginUsername, [username], [password], [], true, app, s0);
      var passwordPage := Next(reg, [username]);
      ghost var h1 := Advance(reg.pages, LoginUsername, [username], true, app, s0);
      if passwordPage.Err? {
        return Err(passwordPage.error);
      }
      var homePage := passwordPage.value.Next(reg, [password]);
      ghost var h2 := Advance(reg.pages, passwordPage.value.kind, [password], true, app, h1.after);
      if homePage.Err? {
        return Err(homePage.error);
      }
      r := homePage.value.Next(reg, []);
    }

    /** `login_to_profile(username, password)`, wrapped by `@next_page("DemoProfilePageV2")`. */
    method LoginToProfile(reg: Registry, username: string, password: string) returns (r: Result<ChainPage, Failure>)
      requires Valid() && kind == LoginUsername
      modifies page`attrs, page.driver
      ensures KindOf(r) == Shortcut(reg.pages, username, password, page.highlight, page.driver.app, old(page.driver.state)).result
      ensures page.driver.state == Shortcut(reg.pages, username, password, page.highlight, page.driver.app, old(page.driver.state)).after
      ensures page.attrs == old(page.attrs)
      ensures r.Ok? ==> fresh(r.value) && fresh(r.value.page) && r.value.Valid()
      ensures r.Ok? ==> r.value.context == context && r.value.page.driver == page.driver
      ensures reg.Valid() && r.Ok? ==> r.value.kind == Profile
    {
      if reg.Valid() {
        ShortcutMatchesHops(reg.pages, username, password, page.highlight, page.driver.app, page.driver.state);
      }
      var profilePage := HopThrice(reg, username, password);
      if profilePage.Err? {
        return Err(profilePage.error);
      }
      // the decorator discards `profilePage` and builds its own successor
      var name := Declared(Home);
      if name !in reg.pages {
        return Err(UnknownPage(name));
      }
      WithoutUrlKeeps(context);
      r := Build(reg.pages[name], context);
    }
  }

  /** The class of a constructed page, or the exception. */
  function KindOf(r: Result<ChainPage, Failure>): Result<PageKind, Failure> {
    match r
    case Ok(p) => Ok(p.kind)
    case Err(e) => Err(e)
  }

  /** `ChainingPageFactory.__init__(**kwargs)` for class `kind`. */
  method Build(kind: PageKind, kwargs: Context) returns (r: Result<ChainPage, Failure>)
    modifies Handles(kwargs)
    ensures "driver" !in kwargs ==> r == Err(MissingArgument("driver"))
    ensures "driver" in kwargs && DriverOf(kwargs).None? ==> r == Err(NotADriver)
    ensures DriverOf(kwargs).Some? && UrlOf(kwargs).Err? ==>
              r == Err(UrlOf(kwargs).error) && DriverOf(kwargs).value.state == old(DriverOf(kwargs).value.state)
    ensures DriverOf(kwargs).Some? && UrlOf(kwargs).Ok? ==>
              var b := DriverOf(kwargs).value;
              b.state == Landing(b.app, old(b.state), UrlOf(kwargs).value) &&
              KindOf(r) == Constructed(kind, b.state)
    ensures r.Ok? ==> fresh(r.value) && fresh(r.value.page) && r.value.Valid()
    ensures r.Ok? ==> r.value.kind == kind && r.value.context == WithoutUrl(kwargs)
    ensures r.Ok? ==> r.value.page.timeout == DEFAULT_TIMEOUT && r.value.page.delay == ANIMATION_DELAY
  {
    if "driver" !in kwargs {
      return Err(MissingArgument("driver"));
    }
    var base := kwargs["driver"];
    if !base.Handle? {
      return Err(NotADriver);
    }
    var url := UrlOf(kwargs);
    if url.Err? {
      return Err(url.error);
    }
    var made := Open(Some(Table(kind)), base.driver, url.value, None, DEFAULT_TIMEOUT, true, ANIMATION_DELAY);
    if made.Err? {
      return Err(made.error);
    }
    var chained := new ChainPage(kind, made.value, WithoutUrl(kwargs));
    r := Ok(chained);
  }
}
