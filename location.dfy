/** The LSP `Location` value (a document URI and a range within it): its structural,
    null-aware equality, the `==`/`!=` operators and its hash code. The component types
    `U` (`Uri`) and `R` (`Range`) are opaque; what `EqualityComparer<T>.Default` does
    with their non-null values is given by a `Comparer`. */
module Models {
  import opened Common

  /** A C# `int`. */
  type Int32 = x: int | -0x8000_0000 <= x < 0x8000_0000

  const Modulus: int := 0x1_0000_0000

  /** Two's-complement wrap-around of unchecked 32-bit arithmetic. */
  function Wrap32(x: int): (r: Int32)
    ensures r == x - ((x + 0x8000_0000) / Modulus) * Modulus
  {
    (x + 0x8000_0000) % Modulus - 0x8000_0000
  }

  /** Unchecked `int` multiplication and addition. */
  function Mul32(a: Int32, b: Int32): Int32 { Wrap32(a * b) }
  function Add32(a: Int32, b: Int32): Int32 { Wrap32(a + b) }

  /** The equality and hash `EqualityComparer<T>.Default` uses on non-null values of `T`. */
  datatype Comparer<!T> = Comparer(equals: (T, T) -> bool, hash: T -> Int32)

  /** `EqualityComparer<T>.Default.Equals` on nullable references. */
  function DefaultEquals<T>(equals: (T, T) -> bool, a: Option<T>, b: Option<T>): (r: bool)
    ensures a.None? && b.None? ==> r
    ensures a.None? != b.None? ==> !r
    ensures a.Some? && b.Some? ==> (r <==> equals(a.value, b.value))
  {
    match (a, b)
    case (None, None) => true
    case (Some(x), Some(y)) => equals(x, y)
    case _ => false
  }

  /** `EqualityComparer<T>.Default.GetHashCode`: 0 for null. */
  function DefaultHash<T>(hash: T -> Int32, a: Option<T>): (r: Int32)
    ensures a.None? ==> r == 0
    ensures a.Some? ==> r == hash(a.value)
  {
    match a
    case None => 0
    case Some(x) => hash(x)
  }

  datatype Location<U, R> = Location(uri: Option<U>, range: Option<R>)

  /** A C# `object` argument: null, a `Location`, or anything else. */
  datatype Object<U, R> = NullObject | LocationObject(location: Location<U, R>) | OtherObject

  /** `obj as Location`. */
  function AsLocation<U, R>(obj: Object<U, R>): (r: Option<Location<U, R>>)
    ensures r.Some? <==> obj.LocationObject?
    ensures r.Some? ==> r.value == obj.location
  {
    match obj
    case LocationObject(l) => Some(l)
    case _ => None
  }

  /** `Equals(Location other)`. */
  function Equals<U, R>(uris: Comparer<U>, ranges: Comparer<R>, self: Location<U, R>, other: Option<Location<U, R>>): (r: bool)
    ensures r <==>
      && other.Some?
      && (if self.uri.Some? && other.value.uri.Some? then uris.equals(self.uri.value, other.value.uri.value)
          else self.uri.None? && other.value.uri.None?)
      && (if self.range.Some? && other.value.range.Some? then ranges.equals(self.range.value, other.value.range.value)
          else self.range.None? && other.value.range.None?)
  {
    other.Some? &&
    DefaultEquals(uris.equals, self.uri, other.value.uri) &&
    DefaultEquals(ranges.equals, self.range, other.value.range)
  }

  /** `Equals(object obj)`. */
  function EqualsObject<U, R>(uris: Comparer<U>, ranges: Comparer<R>, self: Location<U, R>, obj: Object<U, R>): (r: bool)
    ensures !obj.LocationObject? ==> !r
    ensures obj.LocationObject? ==> (r <==> Equals(uris, ranges, self, Some(obj.location)))
  {
    Equals(uris, ranges, self, AsLocation(obj))
  }

  /** `operator ==`, through `EqualityComparer<Location>.Default`. */
  function OpEquals<U, R>(uris: Comparer<U>, ranges: Comparer<R>, a: Option<Location<U, R>>, b: Option<Location<U, R>>): (r: bool)
    ensures a.None? && b.None? ==> r
    ensures a.None? != b.None? ==> !r
    ensures a.Some? && b.Some? ==> (r <==> Equals(uris, ranges, a.value, b))
  {
    DefaultEquals((x: Location<U, R>, y: Location<U, R>) => Equals(uris, ranges, x, Some(y)), a, b)
  }

  /** `operator !=`: holds exactly when one side is null, or neither is and `Equals` fails. */
  function OpNotEquals<U, R>(uris: Comparer<U>, ranges: Comparer<R>, a: Option<Location<U, R>>, b: Option<Location<U, R>>): (r: bool)
    ensures r <==> (a.None? != b.None?) || (a.Some? && b.Some? && !Equals(uris, ranges, a.value, b))
  {
    !OpEquals(uris, ranges, a, b)
  }

  const Seed: Int32 := 1486144663
  const Multiplier: Int32 := -1521134295

  /** `GetHashCode`: the seed folded with the component hashes in unchecked `int` arithmetic.
      The step-by-step wrapped fold equals the exact polynomial
      `(Seed * Multiplier + h(Uri)) * Multiplier + h(Range)` reduced once to 32 bits. */
  function GetHashCode<U, R>(uris: Comparer<U>, ranges: Comparer<R>, self: Location<U, R>): (r: Int32)
    ensures r == Wrap32((Seed * Multiplier + DefaultHash(uris.hash, self.uri)) * Multiplier
                        + DefaultHash(ranges.hash, self.range))
  {
    var hashCode := Seed;
    assert hashCode == Wrap32(Seed);
    FoldStep(hashCode, Seed, DefaultHash(uris.hash, self.uri));
    var hashCode := Add32(Mul32(hashCode, Multiplier), DefaultHash(uris.hash, self.uri));
    FoldStep(hashCode, Seed * Multiplier + DefaultHash(uris.hash, self.uri), DefaultHash(ranges.hash, self.range));
    var hashCode := Add32(Mul32(hashCode, Multiplier), DefaultHash(ranges.hash, self.range));
    hashCode
  }

  ghost predicate Reflexive<T(!new)>(rel: (T, T) -> bool) { forall x :: rel(x, x) }
  ghost predicate Symmetric<T(!new)>(rel: (T, T) -> bool) { forall x, y :: rel(x, y) ==> rel(y, x) }
  ghost predicate Transitive<T(!new)>(rel: (T, T) -> bool) { forall x, y, z :: rel(x, y) && rel(y, z) ==> rel(x, z) }

  /** The hash agrees with the equality: equal values hash alike. */
  ghost predicate HashRespects<T(!new)>(c: Comparer<T>) { forall x, y :: c.equals(x, y) ==> c.hash(x) == c.hash(y) }

  lemma EqualsReflexive<U(!new), R(!new)>(uris: Comparer<U>, ranges: Comparer<R>, a: Location<U, R>)
    requires Reflexive(uris.equals) && Reflexive(ranges.equals)
    ensures Equals(uris, ranges, a, Some(a))
    ensures EqualsObject(uris, ranges, a, LocationObject(a))
    ensures OpEquals(uris, ranges, Some(a), Some(a))
  {
  }

  lemma EqualsSymmetric<U(!new), R(!new)>(uris: Comparer<U>, ranges: Comparer<R>, a: Option<Location<U, R>>, b: Option<Location<U, R>>)
    requires Symmetric(uris.equals) && Symmetric(ranges.equals)
    ensures OpEquals(uris, ranges, a, b) <==> OpEquals(uris, ranges, b, a)
    ensures a.Some? ==> (Equals(uris, ranges, a.value, b) <==> (b.Some? && Equals(uris, ranges, b.value, a)))
  {
  }

  lemma EqualsTransitive<U(!new), R(!new)>(uris: Comparer<U>, ranges: Comparer<R>, a: Location<U, R>, b: Location<U, R>, c: Location<U, R>)
    requires Transitive(uris.equals) && Transitive(ranges.equals)
    requires Equals(uris, ranges, a, Some(b)) && Equals(uris, ranges, b, Some(c))
    ensures Equals(uris, ranges, a, Some(c))
  {
  }

  /** Wrapping ignores multiples of 2^32. */
  lemma {:induction false} WrapShift(x: int, k: int)
    ensures Wrap32(x + k * Modulus) == Wrap32(x)
  {
    assert (x + k * Modulus + 0x8000_0000) % Modulus == (x + 0x8000_0000) % Modulus;
  }

  /** One step of the fold, `acc * Multiplier + h` in unchecked arithmetic, agrees with
      the exact step when `acc` is the wrapped value of an exact accumulator. */
  lemma {:induction false} FoldStep(acc: Int32, exact: int, h: Int32)
    requires acc == Wrap32(exact)
    ensures Add32(Mul32(acc, Multiplier), h) == Wrap32(exact * Multiplier + h)
  {
    var p := acc * Multiplier;
    var q1 := (p + 0x8000_0000) / Modulus;
    assert Mul32(acc, Multiplier) + h == (p + h) + (-q1) * Modulus;
    WrapShift(p + h, -q1);
    var q2 := (exact + 0x8000_0000) / Modulus;
    assert acc == exact + (-q2) * Modulus;
    assert p + h == (exact * Multiplier + h) + (-q2 * Multiplier) * Modulus;
    WrapShift(exact * Multiplier + h, -q2 * Multiplier);
  }

  /** A location whose fields are both null hashes to a fixed constant. */
  lemma NullLocationHash<U, R>(uris: Comparer<U>, ranges: Comparer<R>)
    ensures GetHashCode(uris, ranges, Location(None, None)) == -1372907129
  {
    assert (Seed * Multiplier + 0) * Multiplier + 0 == 3438715149946268991194077575;
  }

  /** Equal locations have equal hash codes when the component hashes respect the
      component equalities. */
  lemma EqualLocationsHashAlike<U(!new), R(!new)>(uris: Comparer<U>, ranges: Comparer<R>, a: Location<U, R>, b: Location<U, R>)
    requires HashRespects(uris) && HashRespects(ranges)
    requires Equals(uris, ranges, a, Some(b))
    ensures GetHashCode(uris, ranges, a) == GetHashCode(uris, ranges, b)
  {
  }
}
