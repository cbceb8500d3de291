# Page-object navigation and locator merging

This project models the logic of a browser end-to-end test suite built on page objects. The suite itself writes very little: most of it declares locators and calls into the browser-automation library. What it does write is modelled here:

- **Merging locator maps** (`BasePage.Merge`, `MergeLocators`, `MergeOnLoadLocators`). A page folds each child component's `locators` or `onLoadLocators` over its own map, in `getComponents()` order. The last write wins.
- **The navigation state machine of `PageBase`** (class `BasePage.PageBase`). The overloaded `goto` reduces its positional arguments to a path and a wait flag. A non-empty path overwrites the private `dynamicPath`, which then persists into later calls. The page navigates once to `getFullUrl()`. Only then, if the flag is set, it waits on every `onLoadLocators` key with the default timeout of 10000 ms.
- **The older `PageBase` of `pages/shared/page.ts`** (class `SharedPage.PageBase`). Its truthiness-based if/else chain decides the wait flag differently. Its path statements are no-ops, so the dynamic path is never set. Its wait covers only the `locators` keys that start with `_`.
- **`DashboardPage`**. Seven components are merged over empty page maps in a fixed order. As a result, the week chart's entries survive for the keys that three charts share.

Modelling choices:

- A locator is the opaque token `Loc(owner, name)`, and a locator map is `map<string, Loc>`. A component is encoded by the key sets of its `*.locators.ts` builders.
- A positional argument of `goto` is `Arg = Str | Bool | Absent`. The third parameter is declared `boolean`, so it is the subset type `FlagArg` (never a string).
- The browser calls `page.goto(url)` and `Locator.waitFor` are external. Each `page.goto` is recorded as a `Navigate` effect appended to the page's `trace`. The page's own `waitLoadingLocators(timeout)` is modelled; its calls to `waitFor` are recorded as one `WaitVisible` effect holding the set of keys waited on and the timeout.
- Dafny has no inheritance here. So `DashboardPage` holds its seven components and a `BasePage.PageBase` that carries the merged maps. The members each base class leaves to its subclasses are constructor arguments: `url`, `onLoadLocators` and `locators` for pages/base/page.base.ts, which declares all three abstract (pages/base/page.base.ts:27-29), and only `onLoadLocators` and `locators` for pages/shared/page.ts, whose `url` is an ordinary field set by its own constructor with `'/'` as the default (pages/shared/page.ts:29, 40-43).
- JavaScript's `reduce` is a left fold. `Merge` states it as `Merge(b, cs + [c]) == Merge(b, cs) + c.<map>`, which is the same value. A selector (`Which`) says whether a merge reads the components' `onLoadLocators` or `locators`, so both merges share one definition. Dafny's `+` on maps is right-biased, like an object spread. Maps are values, so the base map passed in is never mutated.
- `getFullUrl` is identical in both base classes, so it is defined once, as `Navigation.FullUrl`.

## Model

| member | source | states |
|---|---|---|
| `Locators.Build` | pages/dashboard/week-chart/week-chart.locators.ts:3-17 | a component's full key set is its on-load keys plus its extra keys (`{...onLoadLocators(container), ...}`), and every token of both maps belongs to that component under its own key |
| `Navigation.FullUrlDeterminesPath` | pages/base/page.base.ts:88-90 | `getFullUrl()` always starts with `url`, and different dynamic paths give different URLs (the same `getFullUrl` is at pages/shared/page.ts:59-61) |
| `BasePage.LastDefining` | pages/base/page.base.ts:56-59 | reference definition of "the last component whose map defines k": its index, with k absent from every later component's map, or -1 when none defines k |
| `BasePage.MergeKeys` | pages/base/page.base.ts:53-60 | a key is in the merged map iff it is in the base or in some component's map, for either of the two maps |
| `BasePage.MergeLastWriteWins` | pages/base/page.base.ts:53-60 | the merged entry for k is the entry of the last component whose map defines k; it is the base entry only when no component defines k (the same for `mergeOnLoadLocators`, pages/base/page.base.ts:67-74) |
| `BasePage.DefaultMergeIsBase` | pages/base/page.base.ts:44-46 | with the default `getComponents()` (empty), both merges return the base map unchanged |
| `BasePage.MergedOnLoadWithinLocators` | pages/base/page.base.ts:53-74 | if the base on-load keys are among the base keys and every component keeps its on-load keys among its full keys, the merged on-load keys are among the merged keys |
| `BasePage.OverloadsResolve` | pages/base/page.base.ts:118-135 | for each of the four declared overloads, the wait flag is its trailing boolean (false when omitted), and the path is its string segments joined by `/` |
| `BasePage.NextPathIdempotent` | pages/base/page.base.ts:137-139 | repeating a `goto` with the same arguments leaves the dynamic path where the first call put it |
| `BasePage.LastPathSetter` | pages/base/page.base.ts:137-139 | reference definition: the index of the last call in a sequence whose path is non-empty, or -1 |
| `BasePage.PathAfterIsLastSet` | pages/base/page.base.ts:30-139 | `dynamicPath` is never reset: after any sequence of calls it is the path of the last call that named a non-empty one, else its earlier value |
| `BasePage.PageBase.constructor` | pages/base/page.base.ts:30-38 | a new page has `dynamicPath == ''` and has issued no navigation |
| `BasePage.PageBase.SetDynamicPath` | pages/base/page.base.ts:80-82 | the dynamic path becomes `path`; nothing is sent to the browser |
| `BasePage.PageBase.Visit` | pages/base/page.base.ts:141 | `page.goto(target)` is recorded as one navigation to `target` |
| `BasePage.PageBase.WaitLoadingLocators` | pages/base/page.base.ts:151-161 | one wait covering exactly the keys of `onLoadLocators`, with the given timeout (default 10000) |
| `BasePage.PageBase.Goto` | pages/base/page.base.ts:118-145 | a non-empty resolved path replaces `dynamicPath` and an empty one leaves it; then exactly one navigation to the full URL after that update; then, only if the flag is set, one wait on all on-load keys with timeout 10000 |
| `BasePage.FreshBareGoto` | pages/base/page.base.ts:30 | on a fresh page, a bare `goto()` visits `url` and does not wait |
| `BasePage.DynamicPathPersists` | pages/base/page.base.ts:137-141 | `goto('42')` and then a bare `goto()` both visit `url/42` |
| `BasePage.GotoIdSuffixAndWait` | pages/base/page.base.ts:123-144 | `goto('42', 'edit', true)` visits `url/42/edit` and then waits on all on-load keys |
| `SharedPage.UnderscoreKeysOfSpread` | pages/shared/page.ts:119-126 | the `startsWith('_')` filter distributes over spreading one map over another, and keeps exactly the keys of the map whose first character is `_` (both directions) |
| `SharedPage.EmptyIdNeverWaits` | pages/shared/page.ts:88-100 | an empty-string first argument leaves the flag false whatever follows, e.g. `goto('', true)` |
| `SharedPage.OverloadFlag` | pages/shared/page.ts:78-100 | for the declared overloads, the page waits iff the call's trailing boolean is true and every path segment is non-empty |
| `SharedPage.IntendedPathJoinsSegments` | pages/shared/page.ts:91-95 | for each declared overload whose segments are all non-empty, the corrected path statements build the call's segments joined by `/`, a non-empty path whenever the call names one |
| `SharedPage.PageBase.constructor` | pages/shared/page.ts:40-43 | the page keeps the given url, `'/'` when none is given; `dynamicPath` starts as `''` |
| `SharedPage.PageBase.SetDynamicPath` | pages/shared/page.ts:50-52 | the dynamic path becomes `path` |
| `SharedPage.PageBase.Visit` | pages/shared/page.ts:108 | `page.goto(target)` is recorded as one navigation to `target` |
| `SharedPage.PageBase.WaitLoadingLocators` | pages/shared/page.ts:119-126 | one wait covering only the `_`-prefixed keys of `locators` (not `onLoadLocators`), with the given timeout (default 10000) |
| `SharedPage.PageBase.Goto` | pages/shared/page.ts:78-112 | `dynamicPath` is left unchanged; exactly one navigation to the full URL; then a wait on the `_` keys exactly when the boolean first argument is true, or a non-empty string id is followed by `true`, or by a non-empty suffix and then `true` |
| `SharedPage.DefaultUrlIsRoot` | pages/shared/page.ts:40-43 | a page built without a url navigates to `'/'` |
| `SharedPage.IdIsDiscarded` | pages/shared/page.ts:84-108 | `goto('42', 'edit')` on a fresh page visits the base url alone, although the intended path is `42/edit` |
| `DashboardPage.DashboardPage.constructor` | pages/dashboard/dashboard.page.ts:27-54 | all seven components are built first; then both maps are merged once, over the empty page maps, in the order stats, budget, areas, week, order, todo, progress; the url is `./vue-element-admin/#/dashboard` |
| `DashboardPage.ShownComponentsSpreadOnLoad` | pages/dashboard/budget-chart/budget-chart.locators.ts:18-25 | every shown component's on-load keys are among its full keys |
| `DashboardPage.WeekChartKeys` | pages/dashboard/week-chart/week-chart.locators.ts:3-17 | the week chart defines `chartContainer`, `lineChart`, `dataPoints` and `tooltips`, the first two also on load |
| `DashboardPage.LaterComponentsLackChartKeys` | pages/dashboard/dashboard.page.ts:50-52 | the order table, todo list and progress card, merged after the week chart, define none of those keys |
| `DashboardPage.WeekChartWins` | pages/dashboard/dashboard.page.ts:44-54 | a key the fourth component (week) defines and no later component defines resolves to the week chart's entry |
| `DashboardPage.SharedChartKeysFromWeekChart` | pages/dashboard/dashboard.page.ts:40-54 | in the merged maps, `chartContainer`, `lineChart`, `dataPoints` and `tooltips` (and `chartContainer` and `lineChart` on load) are the week chart's, not the budget or areas chart's |
| `DashboardPage.EveryKeyFromAComponent` | pages/dashboard/dashboard.page.ts:40-41 | the page's own maps are empty, so a key is merged iff some component defines it |
| `DashboardPage.OnLoadKeysWithinLocators` | pages/dashboard/dashboard.page.ts:40-41 | the merged on-load keys are among the merged keys, given that the statistics chart also spreads its on-load map |
| `DashboardPage.SpreadingComponentsMergeWithin` | pages/dashboard/dashboard.page.ts:40-41 | for any seven components that each spread their on-load map, merging them over the empty page maps keeps the on-load keys among the full keys |
| `DashboardPage.FreshDashboardBareGoto` | pages/dashboard/dashboard.page.ts:14 | a bare `goto()` on a fresh dashboard visits `./vue-element-admin/#/dashboard` and does not wait |
| `DashboardPage.FreshDashboardGotoAndWait` | pages/dashboard/dashboard.page.ts:14-41 | `goto(true)` on a fresh dashboard visits the dashboard url, then waits on every merged on-load key |

## Left out

- The browser library (`page.goto`, `waitFor`, `getByRole`, `locator`, `getByText`, `fill`, `click`): these are external. Navigations and waits appear only as recorded `Effect`s, and locators only as opaque tokens, so the selectors themselves are not modelled.
- `Promise.all` concurrency and timeouts inside `waitLoadingLocators`: only which keys are waited on, and with what timeout, is modelled. Visibility failures and the order of the concurrent waits are not.
- BasePage.PageBase.Goto: a rejected `page.goto` is not modelled; the navigation always succeeds. In pages/base/page.base.ts:137-144 the dynamic path is set before the navigation, so on a rejection the new path stays, the wait is skipped and the error reaches the caller. The model does not capture that outcome.
- SharedPage.PageBase.Goto: a rejected `page.goto` (pages/shared/page.ts:108) is not modelled either; there the wait would be skipped and the error passed to the caller.
- BasePage.PageBase.WaitLoadingLocators: `timeout` is a JavaScript `number` and is handed to `waitFor` unchanged; the model takes an `int`, so fractional timeouts are not represented.
- SharedPage.PageBase.WaitLoadingLocators: the same `int` timeout, so fractional values are not represented.
- The statistics chart's locator builders (`stats-chart.locators.ts`) are not part of this model. Its maps are a parameter of the dashboard constructor, and the on-load subset lemma assumes it spreads its on-load map like the other components.
- Key insertion order of JavaScript objects: Dafny maps are unordered, and no property here depends on that order.
- Component classes (menus, charts, tables, todo list), their unshown chart and list base classes, the component `container`, the login page, test specs, fixtures, the tag helper and session persistence: these are browser scripts or test-runner glue.
- `pages/shared/page.interface.ts`: type declarations only. Its overloads appear as `Navigation.Call`.

## Findings

| source | as written | input that shows it | evidently intended | confidence | as-written member | corrected member |
|---|---|---|---|---|---|---|
| pages/shared/page.ts:91-95 | `path ?? param1;` and ``path ?? `${path}/${param2}`;`` evaluate to `path` (a string, never nullish) and drop it, so `path` stays `''` and `setDynamicPath` is never reached | `goto('42', 'edit')` navigates to `url` instead of `url/42/edit` | `path = param1;` then ``path = `${path}/${param2}`;`` | not executed; high (the newer base class builds the path) | `SharedPage.IdIsDiscarded` | `SharedPage.IntendedPathJoinsSegments` |

The class `SharedPage.PageBase` keeps the as-written behaviour, because that is what pages built on this file get. The corrected path is `SharedPage.IntendedPath`. For every declared overload with non-empty segments, `SharedPage.IntendedPathJoinsSegments` proves that it yields the segments joined by `/`. That is what pages/base/page.base.ts builds for the same calls (`BasePage.OverloadsResolve`). On an empty segment the corrected chain still differs from the newer class, because it keeps the truthiness tests (pages/shared/page.ts:90, 94): `goto('', 'x')` gives `''` there but `/x` in pages/base/page.base.ts, and `goto('42', '')` gives `42` there but `42/`.
