/** What both page base classes share: the run-time arguments of the
    overloaded `goto`, its four declared call shapes, the effects a page asks
    of the browser, and how the full URL is built from the base url and the
    dynamic path. */
module Navigation {

  /** Default `timeout` of `waitLoadingLocators`, in milliseconds. */
  const DefaultTimeout: int := 10000

  datatype Option<T> = None | Some(value: T)

  /** One positional argument of `goto` as it arrives at run time:
      a string, a boolean, or not passed at all (`undefined`). */
  datatype Arg = Str(s: string) | Bool(b: bool) | Absent

  /** The third positional parameter is declared `boolean`: no string can be passed there. */
  type FlagArg = a: Arg | !a.Str? witness Absent

  /** JavaScript truthiness of an argument. */
  predicate Truthy(a: Arg) {
    match a
    case Str(s) => s != ""
    case Bool(b) => b
    case Absent => false
  }

  /** What a page asks of the browser library: one `page.goto(url)`, or one
      `waitLoadingLocators(timeout)` that waits for each of `keys` to become
      visible (the waits run concurrently; only the key set is recorded). */
  datatype Effect = Navigate(url: string) | WaitVisible(keys: set<string>, timeout: int)

  /** The four overloads `IPageBase` declares:
      `goto()`, `goto(checkVisibility)`, `goto(id, checkVisibility?)`,
      `goto(id, suffix, checkVisibility?)`. */
  datatype Call =
    | Bare
    | Check(flag: bool)
    | Id(id: string, wait: Option<bool>)
    | IdSuffix(id: string, suffix: string, wait: Option<bool>)

  function FlagOf(w: Option<bool>): FlagArg {
    match w
    case None => Absent
    case Some(b) => Bool(b)
  }

  /** The positional arguments the implementation signature receives for a call. */
  function ArgsOf(c: Call): (Arg, Arg, FlagArg) {
    match c
    case Bare => (Absent, Absent, Absent)
    case Check(b) => (Bool(b), Absent, Absent)
    case Id(id, w) => (Str(id), FlagOf(w), Absent)
    case IdSuffix(id, s, w) => (Str(id), Str(s), FlagOf(w))
  }

  /** The path segments a call names, in order. */
  function Segments(c: Call): seq<string> {
    match c
    case Bare => []
    case Check(_) => []
    case Id(id, _) => [id]
    case IdSuffix(id, s, _) => [id, s]
  }

  /** Whether a call asks for the visibility wait (an omitted flag means no). */
  function WantsWait(c: Call): bool {
    match c
    case Bare => false
    case Check(b) => b
    case Id(_, w) => w == Some(true)
    case IdSuffix(_, _, w) => w == Some(true)
  }

  /** Segments joined by `/`. */
  function Join(segs: seq<string>): string
    decreases |segs|
  {
    if |segs| == 0 then ""
    else if |segs| == 1 then segs[0]
    else Join(segs[..|segs| - 1]) + "/" + segs[|segs| - 1]
  }

  /** `getFullUrl()`: the base url, followed by `/` and the dynamic path when that is non-empty. */
  function FullUrl(url: string, dynamicPath: string): string {
    if dynamicPath != "" then url + "/" + dynamicPath else url
  }

  /** The full URL always starts with the base url, and the dynamic path can
      be read back from it: distinct dynamic paths give distinct URLs. */
  lemma FullUrlDeterminesPath(url: string, p: string, q: string)
    ensures url <= FullUrl(url, p)
    ensures FullUrl(url, p) == FullUrl(url, q) ==> p == q
  {
    var u := FullUrl(url, p);
    assert u[..|url|] == url;
    if u == FullUrl(url, q) && p != "" && q != "" {
      assert u[|url| + 1..] == p;
      assert u[|url| + 1..] == q;
    }
  }
}
