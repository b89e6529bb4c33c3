/**
 * ShadowMap: an immutable map from a target class to the shadow class that
 * stands in for it and the call-through policy of that registration, built
 * through a Builder. A map is a value, so deriving a new map through
 * newBuilder() never disturbs the one it started from.
 */
module ShadowMaps {
  import opened Wrappers
  import opened Hierarchy

  /** One registration: the shadow class, and whether the original runs when the shadow has no matching method. */
  datatype ShadowConfig = ShadowConfig(shadowClassName: ClassId, callThroughByDefault: bool)

  type ShadowMap = map<ClassId, ShadowConfig>

  /** ShadowMap.EMPTY: no class is shadowed. */
  const EMPTY: ShadowMap := map[]

  datatype Builder = Builder(entries: map<ClassId, ShadowConfig>)

  /** `new ShadowMap.Builder()`: a builder with no registrations. */
  function NewEmptyBuilder(): (b: Builder)
    ensures Build(b) == EMPTY
  {
    Builder(map[])
  }

  /** `shadowMap.newBuilder()`: a builder seeded with every registration of `m`. */
  function NewBuilder(m: ShadowMap): (b: Builder)
    ensures forall c :: ConfigFor(Build(b), c) == ConfigFor(m, c)
  {
    Builder(m)
  }

  /**
   * `addShadowClass(original, shadow, callThroughByDefault)`: registers
   * `shadow` for `original`, replacing any earlier registration of
   * `original`; every other registration is kept.
   */
  function AddShadowClass(b: Builder, original: ClassId, shadow: ClassId, callThroughByDefault: bool): (b': Builder)
    ensures ConfigFor(Build(b'), original) == Some(ShadowConfig(shadow, callThroughByDefault))
    ensures forall c :: c != original ==> ConfigFor(Build(b'), c) == ConfigFor(Build(b), c)
    ensures Build(b').Keys == Build(b).Keys + {original}
  {
    Builder(b.entries[original := ShadowConfig(shadow, callThroughByDefault)])
  }

  /** `build()`: the map holds exactly the builder's registrations. */
  function Build(b: Builder): ShadowMap
  {
    b.entries
  }

  /** The registration for `c`, if there is one. */
  function ConfigFor(m: ShadowMap, c: ClassId): Option<ShadowConfig>
  {
    if c in m then Some(m[c]) else None
  }

  /** ShadowMap.EMPTY registers no class. */
  lemma EmptyRegistersNothing(c: ClassId)
    ensures ConfigFor(EMPTY, c) == None
  {
  }

  /** A later addShadowClass for the same target replaces the earlier one (last write wins). */
  lemma LaterRegistrationWins(b: Builder, original: ClassId, s1: ClassId, t1: bool, s2: ClassId, t2: bool)
    ensures Build(AddShadowClass(AddShadowClass(b, original, s1, t1), original, s2, t2))
         == Build(AddShadowClass(b, original, s2, t2))
  {
  }

  /** Registrations for different targets can be added in either order. */
  lemma DistinctRegistrationsCommute(b: Builder, o1: ClassId, s1: ClassId, t1: bool, o2: ClassId, s2: ClassId, t2: bool)
    requires o1 != o2
    ensures Build(AddShadowClass(AddShadowClass(b, o1, s1, t1), o2, s2, t2))
         == Build(AddShadowClass(AddShadowClass(b, o2, s2, t2), o1, s1, t1))
  {
  }
}
