/** The page base class of pages/base/page.base.ts: merging the child
    components' locator maps over the page's own, resolving the overloaded
    `goto` arguments, and the navigation state machine around the private
    `dynamicPath` field. */
module BasePage {
  import opened Locators
  import opened Navigation

  // ---------------------------------------------------------------------
  // Locator-map merging
  // ---------------------------------------------------------------------

  /** Which of a component's two maps a merge reads. */
  datatype Which = OnLoad | All

  function Pick(c: Component, which: Which): LocatorMap {
    match which
    case OnLoad => c.onLoadLocators
    case All => c.locators
  }

  /** `components.reduce((acc, c) => ({ ...acc, ...c.<which> }), base)`: a
      left fold in which each later component's map overwrites the
      accumulated one on shared keys. It builds a new map and leaves `base`
      as it was. */
  function Merge(base: LocatorMap, components: seq<Component>, which: Which): LocatorMap
    decreases |components|
  {
    if components == [] then base
    else Merge(base, components[..|components| - 1], which) + Pick(components[|components| - 1], which)
  }

  /** The index of the last component whose map defines `k`, or -1 when none does. */
  function LastDefining(components: seq<Component>, which: Which, k: string): (i: int)
    ensures -1 <= i < |components|
    ensures i >= 0 ==> k in Pick(components[i], which)
    ensures forall j :: i < j < |components| ==> k !in Pick(components[j], which)
    decreases |components|
  {
    if components == [] then -1
    else if k in Pick(components[|components| - 1], which) then |components| - 1
    else LastDefining(components[..|components| - 1], which, k)
  }

  /** The merged keys are the base keys plus every component's keys. */
  lemma {:induction false} MergeKeys(base: LocatorMap, components: seq<Component>, which: Which, k: string)
    ensures k in Merge(base, components, which)
        <==> k in base || exists i :: 0 <= i < |components| && k in Pick(components[i], which)
    decreases |components|
  {
    if components != [] {
      var n := |components| - 1;
      var init := components[..n];
      MergeKeys(base, init, which, k);
      if k in Merge(base, components, which) && k !in base && k !in Pick(components[n], which) {
        var i :| 0 <= i < n && k in Pick(init[i], which);
        assert init[i] == components[i];
      }
      if exists i :: 0 <= i < |components| && k in Pick(components[i], which) {
        var i :| 0 <= i < |components| && k in Pick(components[i], which);
        if i < n {
          assert init[i] == components[i];
        }
      }
    }
  }

  /** Last write wins: a merged key holds the entry of the last component
      that defines it, and the base entry only when no component does. */
  lemma {:induction false} MergeLastWriteWins(base: LocatorMap, components: seq<Component>, which: Which, k: string)
    requires k in Merge(base, components, which)
    ensures LastDefining(components, which, k) >= 0 ==>
      Merge(base, components, which)[k] == Pick(components[LastDefining(components, which, k)], which)[k]
    ensures LastDefining(components, which, k) < 0 ==>
      k in base && Merge(base, components, which)[k] == base[k]
    decreases |components|
  {
    if components != [] {
      var n := |components| - 1;
      if k !in Pick(components[n], which) {
        MergeLastWriteWins(base, components[..n], which, k);
      }
    }
  }

  /** `mergeLocators(baseLocators)` over `getComponents()`. */
  function MergeLocators(baseLocators: LocatorMap, components: seq<Component>): LocatorMap {
    Merge(baseLocators, components, All)
  }

  /** `mergeOnLoadLocators(baseLocators)` over `getComponents()`. */
  function MergeOnLoadLocators(baseLocators: LocatorMap, components: seq<Component>): LocatorMap {
    Merge(baseLocators, components, OnLoad)
  }

  /** The default `getComponents()`: no components. */
  function DefaultComponents(): seq<Component> {
    []
  }

  /** With the default components both merges give back the base map. */
  lemma DefaultMergeIsBase(baseLocators: LocatorMap)
    ensures MergeLocators(baseLocators, DefaultComponents()) == baseLocators
    ensures MergeOnLoadLocators(baseLocators, DefaultComponents()) == baseLocators
  {
  }

  /** When the page's own maps and every component keep the convention that
      the on-load keys are among the full keys, the merged maps keep it too. */
  lemma {:induction false} MergedOnLoadWithinLocators(baseOnLoad: LocatorMap, baseLocators: LocatorMap, components: seq<Component>)
    requires baseOnLoad.Keys <= baseLocators.Keys
    requires forall c :: c in components ==> c.onLoadLocators.Keys <= c.locators.Keys
    ensures MergeOnLoadLocators(baseOnLoad, components).Keys <= MergeLocators(baseLocators, components).Keys
    decreases |components|
  {
    if components != [] {
      var n := |components| - 1;
      assert components[n] in components;
      assert forall c :: c in components[..n] ==> c in components;
      MergedOnLoadWithinLocators(baseOnLoad, baseLocators, components[..n]);
    }
  }

  // ---------------------------------------------------------------------
  // Resolving the overloaded goto arguments
  // ---------------------------------------------------------------------

  /** `checkVisibility`: the first argument if it is a boolean, else the
      second if it is a boolean, else the third (`check ?? false`). */
  function ResolveCheck(idOrCheck: Arg, suffixOrCheck: Arg, check: FlagArg): bool {
    if idOrCheck.Bool? then idOrCheck.b
    else if suffixOrCheck.Bool? then suffixOrCheck.b
    else if check.Bool? then check.b
    else false
  }

  /** `path`: `id/suffix` when the first two arguments are strings, `id` when
      only the first is, and `''` when the first is not a string. */
  function ResolvePath(idOrCheck: Arg, suffixOrCheck: Arg): string {
    if idOrCheck.Str? then
      if suffixOrCheck.Str? then idOrCheck.s + "/" + suffixOrCheck.s else idOrCheck.s
    else ""
  }

  /** The dynamic path after a `goto`: a non-empty path replaces it, an empty one leaves it. */
  function NextPath(dynamicPath: string, idOrCheck: Arg, suffixOrCheck: Arg): string {
    var path := ResolvePath(idOrCheck, suffixOrCheck);
    if path != "" then path else dynamicPath
  }

  /** Each declared overload resolves as documented: the path is its string
      segments joined by `/`, and the wait flag is its trailing boolean
      (false when omitted). */
  lemma OverloadsResolve(c: Call)
    ensures ResolveCheck(ArgsOf(c).0, ArgsOf(c).1, ArgsOf(c).2) == WantsWait(c)
    ensures ResolvePath(ArgsOf(c).0, ArgsOf(c).1) == Join(Segments(c))
  {
    match c
    case Bare =>
    case Check(_) =>
    case Id(id, w) =>
      assert Join([id]) == id;
    case IdSuffix(id, s, w) =>
      assert [id, s][..1] == [id];
      assert Join([id, s]) == id + "/" + s;
  }

  /** Repeating the same `goto` leaves the dynamic path, and so the URL, where the first one put it. */
  lemma NextPathIdempotent(dynamicPath: string, idOrCheck: Arg, suffixOrCheck: Arg)
    ensures NextPath(NextPath(dynamicPath, idOrCheck, suffixOrCheck), idOrCheck, suffixOrCheck)
         == NextPath(dynamicPath, idOrCheck, suffixOrCheck)
  {
  }

  // ---------------------------------------------------------------------
  // The dynamic path across a sequence of goto calls
  // ---------------------------------------------------------------------

  datatype GotoArgs = GotoArgs(idOrCheck: Arg, suffixOrCheck: Arg, check: FlagArg)

  function PathOf(a: GotoArgs): string {
    ResolvePath(a.idOrCheck, a.suffixOrCheck)
  }

  /** The dynamic path after `calls` were made in order, starting from `dynamicPath`. */
  function PathAfter(dynamicPath: string, calls: seq<GotoArgs>): string
    decreases |calls|
  {
    if calls == [] then dynamicPath
    else
      var last := calls[|calls| - 1];
      NextPath(PathAfter(dynamicPath, calls[..|calls| - 1]), last.idOrCheck, last.suffixOrCheck)
  }

  /** The index of the last call whose path is non-empty, or -1. */
  function LastPathSetter(calls: seq<GotoArgs>): (i: int)
    ensures -1 <= i < |calls|
    ensures i >= 0 ==> PathOf(calls[i]) != ""
    ensures forall j :: i < j < |calls| ==> PathOf(calls[j]) == ""
    decreases |calls|
  {
    if calls == [] then -1
    else if PathOf(calls[|calls| - 1]) != "" then |calls| - 1
    else LastPathSetter(calls[..|calls| - 1])
  }

  /** The dynamic path is never reset: after any sequence of calls it is the
      path of the last call that named a non-empty one, or what it was before
      when none did. */
  lemma {:induction false} PathAfterIsLastSet(dynamicPath: string, calls: seq<GotoArgs>)
    ensures PathAfter(dynamicPath, calls)
         == if LastPathSetter(calls) >= 0 then PathOf(calls[LastPathSetter(calls)]) else dynamicPath
    decreases |calls|
  {
    if calls != [] {
      var n := |calls| - 1;
      PathAfterIsLastSet(dynamicPath, calls[..n]);
      if PathOf(calls[n]) == "" {
        assert LastPathSetter(calls) == LastPathSetter(calls[..n]);
      }
    }
  }

  // ---------------------------------------------------------------------
  // The page object
  // ---------------------------------------------------------------------

  /** `PageBase`. The abstract `url`, `onLoadLocators` and `locators` a
      concrete page declares are given to the constructor; `trace` records
      what the page asked of the browser, in order. */
  class PageBase {
    const url: string
    const onLoadLocators: LocatorMap
    const locators: LocatorMap
    var dynamicPath: string
    var trace: seq<Effect>

    constructor (url: string, onLoadLocators: LocatorMap, locators: LocatorMap)
      ensures this.url == url && this.onLoadLocators == onLoadLocators && this.locators == locators
      ensures dynamicPath == "" && trace == []
    {
      this.url := url;
      this.onLoadLocators := onLoadLocators;
      this.locators := locators;
      dynamicPath := "";
      trace := [];
    }

    /** `setDynamicPath(path)`. */
    method SetDynamicPath(path: string)
      modifies this
      ensures dynamicPath == path && trace == old(trace)
    {
      dynamicPath := path;
    }

    /** `getFullUrl()`. */
    function GetFullUrl(): string
      reads this
    {
      FullUrl(url, dynamicPath)
    }

    /** `page.goto(url)` on the browser page. */
    method Visit(target: string)
      modifies this
      ensures trace == old(trace) + [Navigate(target)] && dynamicPath == old(dynamicPath)
    {
      trace := trace + [Navigate(target)];
    }

    /** `waitLoadingLocators(timeout)`: waits for every key of `onLoadLocators`. */
    method WaitLoadingLocators(timeout: int := DefaultTimeout)
      modifies this
      ensures trace == old(trace) + [WaitVisible(onLoadLocators.Keys, timeout)]
      ensures dynamicPath == old(dynamicPath)
    {
      trace := trace + [WaitVisible(onLoadLocators.Keys, timeout)];
    }

    /** `goto(idOrCheck?, suffixOrCheck?, check?)`: updates the dynamic path
        when the call names a non-empty one, navigates exactly once to the
        full URL as it is after that update, and only then, when the flag is
        set, waits for every on-load key with the default timeout. */
    method Goto(idOrCheck: Arg := Absent, suffixOrCheck: Arg := Absent, check: FlagArg := Absent)
      modifies this
      ensures dynamicPath == NextPath(old(dynamicPath), idOrCheck, suffixOrCheck)
      ensures trace == old(trace) + [Navigate(FullUrl(url, dynamicPath))]
                    + (if ResolveCheck(idOrCheck, suffixOrCheck, check)
                       then [WaitVisible(onLoadLocators.Keys, DefaultTimeout)] else [])
    {
      var checkVisibility := ResolveCheck(idOrCheck, suffixOrCheck, check);
      var path := ResolvePath(idOrCheck, suffixOrCheck);
      if path != "" {
        SetDynamicPath(path);
      }
      Visit(GetFullUrl());
      if checkVisibility {
        WaitLoadingLocators();
      }
    }
  }

  /** A fresh page has no dynamic path, so a bare `goto()` visits the base url and does not wait. */
  method FreshBareGoto(url: string, onLoadLocators: LocatorMap, locators: LocatorMap) returns (visited: seq<Effect>)
    ensures visited == [Navigate(url)]
  {
    var p := new PageBase(url, onLoadLocators, locators);
    p.Goto();
    visited := p.trace;
  }

  /** `goto('42')` and then a bare `goto()`: the second call visits `url/42` again. */
  method DynamicPathPersists(url: string, onLoadLocators: LocatorMap, locators: LocatorMap) returns (visited: seq<Effect>)
    ensures visited == [Navigate(url + "/42"), Navigate(url + "/42")]
  {
    var p := new PageBase(url, onLoadLocators, locators);
    p.Goto(Str("42"));
    assert p.dynamicPath == "42";
    assert FullUrl(url, "42") == url + "/42";
    p.Goto();
    visited := p.trace;
  }

  /** `goto('42', 'edit', true)`: visits `url/42/edit`, then waits for every on-load key. */
  method GotoIdSuffixAndWait(url: string, onLoadLocators: LocatorMap, locators: LocatorMap) returns (visited: seq<Effect>)
    ensures visited == [Navigate(url + "/42/edit"), WaitVisible(onLoadLocators.Keys, DefaultTimeout)]
  {
    var p := new PageBase(url, onLoadLocators, locators);
    p.Goto(Str("42"), Str("edit"), Bool(true));
    assert "42" + "/" + "edit" == "42/edit";
    assert FullUrl(url, "42/edit") == url + "/42/edit";
    visited := p.trace;
  }
}
