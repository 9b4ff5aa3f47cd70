/**
  Generation parameters: the temperature and token budget sent upstream,
  after the resolver's destructuring defaults. Temperature is only ever passed
  through, so it is an exact `real` here; the token budget is a GraphQL `Int`.
 */
module Params {
  import opened Js

  const DefaultTemperature: real := 0.7
  const DefaultMaxTokens: int := 1000

  /** Parameters as the resolver hands them to an adapter: never `undefined`, possibly `null`. */
  datatype Generation = Generation(temperature: Value<real>, maxTokens: Value<int>)

  predicate Resolved(g: Generation) {
    !g.temperature.Undefined? && !g.maxTokens.Undefined?
  }

  /**
    `const { temperature = 0.7, maxTokens = 1000 } = input`: an omitted value
    takes the default, a supplied one (a number, or an explicit `null`) is kept
    unchanged. The defaults are the same for every provider.
   */
  function Resolve(temperature: Value<real>, maxTokens: Value<int>): (g: Generation)
    ensures Resolved(g)
    ensures temperature.Undefined? ==> g.temperature == Defined(DefaultTemperature)
    ensures maxTokens.Undefined? ==> g.maxTokens == Defined(DefaultMaxTokens)
    ensures !temperature.Undefined? ==> g.temperature == temperature
    ensures !maxTokens.Undefined? ==> g.maxTokens == maxTokens
  {
    Generation(WithDefault(temperature, DefaultTemperature), WithDefault(maxTokens, DefaultMaxTokens))
  }

  /**
    Resolving is idempotent: resolving resolved parameters again (as the
    adapters' own default parameters do) changes nothing.
   */
  lemma ResolveIdempotent(temperature: Value<real>, maxTokens: Value<int>)
    ensures var g := Resolve(temperature, maxTokens); Resolve(g.temperature, g.maxTokens) == g
  {
  }

  /** An explicit value always overrides the default exactly, whatever it is. */
  lemma ExplicitOverrides(t: real, n: int)
    ensures Resolve(Defined(t), Defined(n)) == Generation(Defined(t), Defined(n))
    ensures Resolve(Null, Null) == Generation(Null, Null)
  {
  }
}
