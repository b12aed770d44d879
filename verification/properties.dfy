/**
  Properties of the package classifier that relate several calls or hold for
  whole families of inputs: error precedence, threshold inclusivity, the
  completeness of the truth table, symmetry in the three dimensions and
  monotonicity in the measurements.
 */
module PackageSorterProperties {
  import opened PackageSorter

  /** All four arguments convert and none of the converted values is negative. */
  predicate Accepted(width: Input, height: Input, length: Input, mass: Input) {
    !AnyUnconvertible(width, height, length, mass) && !AnyNegative(width, height, length, mass)
  }

  /** The package the four arguments describe once they have all converted. */
  function Converted(width: Input, height: Input, length: Input, mass: Input): Package
    requires !AnyUnconvertible(width, height, length, mass)
  {
    Package(width.value, height.value, length.value, mass.value)
  }

  function Indicator(b: bool): nat {
    if b then 1 else 0
  }

  /** The inputs fall into exactly one of five cases (some argument does not
      convert; all convert but one is negative; an accepted package that is
      bulky and heavy, exactly one of the two, or neither), and each case has
      its own outcome: no input is classified by default. */
  lemma ExactlyOneOutcome(width: Input, height: Input, length: Input, mass: Input)
    ensures var ok := Accepted(width, height, length, mass);
      var bulky := ok && var p := Converted(width, height, length, mass); IsBulky(p.width, p.height, p.length);
      var heavy := ok && IsHeavy(Converted(width, height, length, mass).mass);
      && Indicator(AnyUnconvertible(width, height, length, mass)) + Indicator(AnyNegative(width, height, length, mass))
         + Indicator(ok && bulky && heavy) + Indicator(ok && bulky != heavy) + Indicator(ok && !bulky && !heavy) == 1
      && (AnyUnconvertible(width, height, length, mass) ==> Sort(width, height, length, mass) == Err(TypeError))
      && (AnyNegative(width, height, length, mass) ==> Sort(width, height, length, mass) == Err(ValueError))
      && (ok && bulky && heavy ==> Sort(width, height, length, mass) == Ok(Rejected))
      && (ok && bulky != heavy ==> Sort(width, height, length, mass) == Ok(Special))
      && (ok && !bulky && !heavy ==> Sort(width, height, length, mass) == Ok(Standard))
  {
  }

  /** A failed conversion wins over everything else, a negative value included. */
  lemma ConversionErrorFirst(width: Input, height: Input, length: Input, mass: Input)
    requires AnyUnconvertible(width, height, length, mass)
    ensures Sort(width, height, length, mass) == Err(TypeError)
  {
  }

  /** Once everything converts, any negative value yields a ValueError and no stack. */
  lemma NegativeIsValueError(width: real, height: real, length: real, mass: real)
    requires width < 0.0 || height < 0.0 || length < 0.0 || mass < 0.0
    ensures Sort(Number(width), Number(height), Number(length), Number(mass)) == Err(ValueError)
  {
  }

  /** Validation hands back exactly the converted values when none is negative. */
  lemma ValidateKeepsValues(p: Package)
    requires p.width >= 0.0 && p.height >= 0.0 && p.length >= 0.0 && p.mass >= 0.0
    ensures Validate(Number(p.width), Number(p.height), Number(p.length), Number(p.mass)) == Ok(p)
  {
  }

  /** The bulky thresholds are inclusive: a volume of exactly one million or a
      dimension of exactly 150 is enough, and values just below both are not. */
  lemma BulkyIsInclusive(width: real, height: real, length: real)
    ensures width * height * length == 1_000_000.0 ==> IsBulky(width, height, length)
    ensures width == 150.0 || height == 150.0 || length == 150.0 ==> IsBulky(width, height, length)
    ensures IsBulky(100.0, 100.0, 100.0) && !IsBulky(100.0, 100.0, 99.99)
    ensures IsBulky(150.0, 50.0, 50.0) && !IsBulky(149.99, 50.0, 50.0)
  {
  }

  /** Heaviness is upward closed and its least mass is exactly 20: a mass of 20
      is heavy, every smaller mass is not, and adding mass keeps a package heavy. */
  lemma HeavyThreshold(mass: real, mass': real)
    ensures IsHeavy(20.0) && !IsHeavy(19.99)
    ensures mass < 20.0 ==> !IsHeavy(mass)
    ensures mass <= mass' && IsHeavy(mass) ==> IsHeavy(mass')
  {
  }

  /** A package whose three dimensions all stay below 100 is never bulky:
      its volume stays below the volume limit. */
  lemma {:induction false} SmallPackageNotBulky(width: real, height: real, length: real)
    requires 0.0 <= width < 100.0 && 0.0 <= height < 100.0 && 0.0 <= length < 100.0
    ensures !IsBulky(width, height, length)
  {
    assert width * height <= 100.0 * height by {
      MulMonotone(width, 100.0, height);
    }
    assert 100.0 * height <= 100.0 * 100.0 by {
      MulMonotone(height, 100.0, 100.0);
    }
    assert width * height * length <= 10_000.0 * length by {
      MulMonotone(width * height, 10_000.0, length);
    }
  }

  /** Multiplying by a non-negative factor keeps an inequality. */
  lemma MulMonotone(a: real, b: real, c: real)
    requires a <= b && 0.0 <= c
    ensures a * c <= b * c
  {
  }

  /** The product of three non-negative values grows with each of them. */
  lemma VolumeMonotone(w: real, h: real, l: real, w': real, h': real, l': real)
    requires 0.0 <= w <= w' && 0.0 <= h <= h' && 0.0 <= l <= l'
    ensures w * h * l <= w' * h' * l'
  {
  }

  /** Growing a package in any dimension never makes it stop being bulky. */
  lemma BulkyMonotone(w: real, h: real, l: real, w': real, h': real, l': real)
    requires 0.0 <= w <= w' && 0.0 <= h <= h' && 0.0 <= l <= l'
    ensures IsBulky(w, h, l) ==> IsBulky(w', h', l')
  {
    VolumeMonotone(w, h, l, w', h', l');
  }

  /** How restrictive a stack is: standard handling, special handling, rejection. */
  function Rank(c: Category): nat {
    match c
    case Standard => 0
    case Special => 1
    case Rejected => 2
  }

  /** One package dominates another when it is at least as large in every
      measurement. */
  predicate Dominates(big: Package, small: Package) {
    && 0.0 <= small.width <= big.width
    && 0.0 <= small.height <= big.height
    && 0.0 <= small.length <= big.length
    && 0.0 <= small.mass <= big.mass
  }

  /** A larger or heavier package never lands on a less restrictive stack. */
  lemma ClassifyMonotone(small: Package, big: Package)
    requires Dominates(big, small)
    ensures Rank(Classify(small)) <= Rank(Classify(big))
  {
    BulkyMonotone(small.width, small.height, small.length, big.width, big.height, big.length);
  }

  /** The outcome does not depend on the order in which the three dimensions are given. */
  lemma SortIgnoresDimensionOrder(width: Input, height: Input, length: Input, mass: Input)
    ensures Sort(width, height, length, mass) == Sort(height, width, length, mass)
    ensures Sort(width, height, length, mass) == Sort(width, length, height, mass)
    ensures Sort(width, height, length, mass) == Sort(length, height, width, mass)
    ensures Sort(width, height, length, mass) == Sort(height, length, width, mass)
    ensures Sort(width, height, length, mass) == Sort(length, width, height, mass)
  {
  }

  /** The three stack names are distinct, so the returned label identifies the stack. */
  lemma LabelsDistinct(c: Category, d: Category)
    ensures c.Label() == d.Label() <==> c == d
  {
  }
}
