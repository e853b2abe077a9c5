/** Types shared by every configuration entity of the codeplug model: optional
    values, the 32-bit unsigned integers the C++ headers use, the identity of
    a referenced object, and the three-way "default / disabled / explicit"
    settings of channels. */
module ConfigObject {

  /** An optional value; `None` plays the role of a C++ null pointer. */
  datatype Option<+T> = None | Some(value: T)

  /** `unsigned` / `uint32_t` of the C++ source. */
  type uint32 = x: nat | x < 0x1_0000_0000

  /** A level of VOX or squelch, documented as [0,10]. */
  type Level = x: nat | x <= 10

  /** The kinds of configuration objects a channel can refer to. */
  datatype ObjectKind =
    | ScanListObj
    | APRSSystemObj
    | GPSSystemObj
    | GroupListObj
    | DigitalContactObj
    | RoamingZoneObj
    | RadioIDObj

  /** The identity of a configuration object together with its runtime kind.
      A reference field of an entity holds an `Option<ObjectId>`: the entity
      points to the object without owning it. */
  datatype ObjectId = ObjectId(kind: ObjectKind, serial: nat)

  /** A reference whose declared targets are `allowed` accepts `target`:
      null is always accepted, an object only when its kind is allowed. */
  predicate Admits(allowed: set<ObjectKind>, target: Option<ObjectId>)
  {
    target.None? || target.value.kind in allowed
  }

  /** A setting that either follows the global default, is switched off, or
      holds an explicit value. Exactly one of the three predicates holds. */
  datatype TriState<+T> = Default | Disabled | Explicit(value: T)
  {
    predicate IsDefault() { Default? }
    predicate IsDisabled() { Disabled? }
    predicate IsExplicit() { Explicit? }
  }

  /** The three states of a tri-state setting are mutually exclusive and
      exhaustive. */
  lemma TriStateExactlyOne<T>(s: TriState<T>)
    ensures s.IsDefault() || s.IsDisabled() || s.IsExplicit()
    ensures !(s.IsDefault() && s.IsDisabled())
    ensures !(s.IsDefault() && s.IsExplicit())
    ensures !(s.IsDisabled() && s.IsExplicit())
  {
  }
}
