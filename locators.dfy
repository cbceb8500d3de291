/** Locators and the components that own them.

    A locator is a lazily resolved handle into the live document that the
    browser library hands out; nothing here resolves one, so a locator is an
    opaque token that only records which component built it and under which
    key. */
module Locators {

  /** An opaque locator token: the component (or page) that built it and the key it is stored under. */
  datatype Loc = Loc(owner: string, name: string)

  /** A `Record<string, Locator>`: semantic element name to locator. */
  type LocatorMap = map<string, Loc>

  /** What a page reads from each of its components (IComponentBase): the
      elements expected right after load, and the full map, which by
      convention spreads the former first. */
  datatype Component = Component(onLoadLocators: LocatorMap, locators: LocatorMap)

  /** The locator builders of a component scoped under `owner`: every key
      becomes a token of that owner. The ensures give callers the keys and
      the tokens directly, so that proofs about the dashboard's seven
      components need not unfold the map comprehension. */
  function Scoped(owner: string, keys: set<string>): (m: LocatorMap)
    ensures m.Keys == keys
    ensures forall k :: k in m ==> m[k] == Loc(owner, k)
  {
    map k | k in keys :: Loc(owner, k)
  }

  /** A component whose `locators` is `{...onLoadLocators(container), ...extra}`. */
  function Build(owner: string, onLoadKeys: set<string>, extraKeys: set<string>): (c: Component)
    ensures c.onLoadLocators.Keys == onLoadKeys
    ensures c.locators.Keys == onLoadKeys + extraKeys
    ensures forall k :: k in c.onLoadLocators ==> c.onLoadLocators[k] == Loc(owner, k)
    ensures forall k :: k in c.locators ==> c.locators[k] == Loc(owner, k)
  {
    Component(Scoped(owner, onLoadKeys), Scoped(owner, onLoadKeys) + Scoped(owner, extraKeys))
  }
}
