/** The older page base class of pages/shared/page.ts. Its `goto` resolves
    its arguments through an if/else chain on JavaScript truthiness; the two
    statements meant to build the path (`path ?? param1` and
    ``path ?? `${path}/${param2}` ``) evaluate to `path` and drop the value,
    so the path stays `''` and the dynamic path is never set. Its visibility
    wait covers the keys of `locators` that start with `_`. */
module SharedPage {
  import opened Locators
  import opened Navigation

  /** The url the constructor uses when none is given. */
  const DefaultUrl: string := "/"

  /** `key.startsWith('_')`. */
  predicate StartsWithUnderscore(key: string) {
    "_" <= key
  }

  /** The keys `waitLoadingLocators` waits on: those of `locators` that start with `_`. */
  function UnderscoreKeys(locators: LocatorMap): set<string> {
    set k | k in locators && StartsWithUnderscore(k)
  }

  /** The `_` filter works key by key: over a map built by spreading `b`
      over `a`, the waited keys are those of `a` together with those of `b`,
      and the waited keys are exactly the keys of the map whose first
      character is `_`. */
  lemma UnderscoreKeysOfSpread(a: LocatorMap, b: LocatorMap)
    ensures UnderscoreKeys(a + b) == UnderscoreKeys(a) + UnderscoreKeys(b)
    ensures UnderscoreKeys(a) <= a.Keys
    ensures forall k :: k in UnderscoreKeys(a) ==> |k| > 0 && k[0] == '_'
    ensures forall k :: k in a && |k| > 0 && k[0] == '_' ==> k in UnderscoreKeys(a)
  {
    forall k | k in UnderscoreKeys(a)
      ensures |k| > 0 && k[0] == '_'
    {
      assert "_"[0] == '_';
    }
  }

  /** When `goto` waits, stated case by case: a boolean first argument is
      the flag itself; a non-empty string first argument hands over to a
      boolean second one; and only when the first two are non-empty strings
      is the third consulted, where only `true` counts. */
  predicate WaitFlag(param1: Arg, param2: Arg, param3: FlagArg) {
    || param1 == Bool(true)
    || (Truthy(param1) && param1.Str? && param2 == Bool(true))
    || (Truthy(param1) && param1.Str? && Truthy(param2) && param2.Str? && param3 == Bool(true))
  }

  /** An empty-string id switches the wait off whatever follows: `goto('', true)` does not wait. */
  lemma EmptyIdNeverWaits(param2: Arg, param3: FlagArg)
    ensures !WaitFlag(Str(""), param2, param3)
  {
  }

  /** Over the declared overloads the wait flag is the trailing boolean, but
      only when every path segment is non-empty. */
  lemma OverloadFlag(c: Call)
    ensures WaitFlag(ArgsOf(c).0, ArgsOf(c).1, ArgsOf(c).2)
        <==> WantsWait(c) && forall i :: 0 <= i < |Segments(c)| ==> Segments(c)[i] != ""
  {
    match c
    case Bare =>
    case Check(_) =>
    case Id(id, w) =>
      assert Segments(c)[0] == id;
    case IdSuffix(id, s, w) =>
      assert Segments(c)[0] == id && Segments(c)[1] == s;
  }

  /** The path the two dropped statements were evidently meant to build
      (`path = param1`, then ``path = `${path}/${param2}` ``), on the same
      if/else chain. */
  function IntendedPath(param1: Arg, param2: Arg): string {
    if param1.Bool? then ""
    else if Truthy(param1) then
      if param2.Bool? then param1.s
      else if Truthy(param2) then param1.s + "/" + param2.s
      else param1.s
    else ""
  }

  /** For every declared overload whose segments are non-empty, the intended
      path is the segments joined by `/`, and so it names a dynamic path. */
  lemma IntendedPathJoinsSegments(c: Call)
    requires forall i :: 0 <= i < |Segments(c)| ==> Segments(c)[i] != ""
    ensures IntendedPath(ArgsOf(c).0, ArgsOf(c).1) == Join(Segments(c))
    ensures Segments(c) != [] ==> IntendedPath(ArgsOf(c).0, ArgsOf(c).1) != ""
  {
    match c
    case Bare =>
    case Check(_) =>
    case Id(id, w) =>
      assert Segments(c)[0] == id;
      assert Join([id]) == id;
    case IdSuffix(id, s, w) =>
      assert Segments(c)[0] == id && Segments(c)[1] == s;
      assert [id, s][..1] == [id];
      assert Join([id, s]) == id + "/" + s;
  }

  /** `PageBase` of pages/shared/page.ts. The abstract `onLoadLocators` and
      `locators` a concrete page declares are given to the constructor;
      `trace` records what the page asked of the browser, in order. */
  class PageBase {
    const url: string
    const onLoadLocators: LocatorMap
    const locators: LocatorMap
    var dynamicPath: string
    var trace: seq<Effect>

    constructor (onLoadLocators: LocatorMap, locators: LocatorMap, url: string := DefaultUrl)
      ensures this.url == url && this.onLoadLocators == onLoadLocators && this.locators == locators
      ensures dynamicPath == "" && trace == []
    {
      this.url := url;
      this.onLoadLocators := onLoadLocators;
      this.locators := locators;
      dynamicPath := "";
      trace := [];
    }

    /** `setDynamicPath(path)`. */
    method SetDynamicPath(path: string)
      modifies this
      ensures dynamicPath == path && trace == old(trace)
    {
      dynamicPath := path;
    }

    /** `getFullUrl()`. */
    function GetFullUrl(): string
      reads this
    {
      FullUrl(url, dynamicPath)
    }

    /** `page.goto(url)` on the browser page. */
    method Visit(target: string)
      modifies this
      ensures trace == old(trace) + [Navigate(target)] && dynamicPath == old(dynamicPath)
    {
      trace := trace + [Navigate(target)];
    }

    /** `waitLoadingLocators(timeout)`: waits only for the keys of `locators` that start with `_`. */
    method WaitLoadingLocators(timeout: int := DefaultTimeout)
      modifies this
      ensures trace == old(trace) + [WaitVisible(UnderscoreKeys(locators), timeout)]
      ensures dynamicPath == old(dynamicPath)
    {
      trace := trace + [WaitVisible(UnderscoreKeys(locators), timeout)];
    }

    /** `goto(param1?, param2?, param3?)` as written: the dynamic path is
        left as it was, the page navigates once to the full URL, and then
        waits exactly when `WaitFlag` holds. */
    method Goto(param1: Arg := Absent, param2: Arg := Absent, param3: FlagArg := Absent)
      modifies this
      ensures dynamicPath == old(dynamicPath)
      ensures trace == old(trace) + [Navigate(FullUrl(url, dynamicPath))]
                    + (if WaitFlag(param1, param2, param3)
                       then [WaitVisible(UnderscoreKeys(locators), DefaultTimeout)] else [])
    {
      var waitLoadingLocators := false;
      var path := "";
      if param1.Bool? {
        waitLoadingLocators := param1.b;
      } else if Truthy(param1) {
        // `path ?? param1`: path is a string, so this is path, and it is dropped.
        if param2.Bool? {
          waitLoadingLocators := param2.b;
        } else if Truthy(param2) {
          // ``path ?? `${path}/${param2}` ``: likewise dropped.
          if Truthy(param3) {
            waitLoadingLocators := param3.b;
          }
        }
      }
      if path != "" {
        // Never taken: `path` is still '' here, so `setDynamicPath` is not reached.
        assert false;
      }
      Visit(GetFullUrl());
      if waitLoadingLocators {
        WaitLoadingLocators();
      }
    }
  }

  /** A page built without a url navigates to `'/'`. */
  method DefaultUrlIsRoot(onLoadLocators: LocatorMap, locators: LocatorMap) returns (visited: seq<Effect>)
    ensures visited == [Navigate("/")]
  {
    var p := new PageBase(onLoadLocators, locators);
    p.Goto();
    visited := p.trace;
  }

  /** `goto('42', 'edit')` on a fresh page visits the base url alone: the id
      and the suffix are dropped, where the intended path is `42/edit`. */
  method IdIsDiscarded(url: string, onLoadLocators: LocatorMap, locators: LocatorMap) returns (visited: seq<Effect>)
    ensures visited == [Navigate(url)]
    ensures IntendedPath(Str("42"), Str("edit")) == "42/edit"
  {
    var p := new PageBase(onLoadLocators, locators, url);
    p.Goto(Str("42"), Str("edit"));
    visited := p.trace;
  }
}
