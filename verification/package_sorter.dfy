/**
  A model of the package classifier: four measurements are coerced to numbers,
  checked for sign, turned into two predicates (bulky, heavy) and dispatched
  through a fixed truth table to one of three stacks.

  Measurements are exact reals; the coercion of an argument to a number is
  abstract (an argument either converts to a real or does not).
 */
module PackageSorter {

  /** The two failures the classifier raises. */
  datatype SortError = TypeError | ValueError

  /** Either a value or one of the classifier's failures; usable with `:-`. */
  datatype Result<+T> = Ok(value: T) | Err(error: SortError) {

    predicate IsFailure() {
      Err?
    }

    function PropagateFailure<U>(): Result<U>
      requires Err?
    {
      Err(error)
    }

    function Extract(): T
      requires Ok?
    {
      value
    }
  }

  /** One argument as the caller supplies it: something that converts to a
      number, or something that does not (a non-numeric string, None, ...). */
  datatype Input = Number(value: real) | Unconvertible

  /** The measurements of a package once all four arguments have converted. */
  datatype Package = Package(width: real, height: real, length: real, mass: real)

  /** The three stacks a package can be sent to. */
  datatype Category = Standard | Special | Rejected {

    /** The stack name the classifier returns; each name belongs to exactly one stack. */
    function Label(): (r: string)
      ensures r == "STANDARD" <==> Standard?
      ensures r == "SPECIAL" <==> Special?
      ensures r == "REJECTED" <==> Rejected?
    {
      match this
      case Standard => "STANDARD"
      case Special => "SPECIAL"
      case Rejected => "REJECTED"
    }
  }

  const VolumeLimit: real := 1_000_000.0
  const DimensionLimit: real := 150.0
  const MassLimit: real := 20.0

  /** Some argument cannot be converted to a number. */
  predicate AnyUnconvertible(width: Input, height: Input, length: Input, mass: Input) {
    width.Unconvertible? || height.Unconvertible? || length.Unconvertible? || mass.Unconvertible?
  }

  /** Every argument converts, and at least one of the converted values is negative. */
  predicate AnyNegative(width: Input, height: Input, length: Input, mass: Input) {
    && !AnyUnconvertible(width, height, length, mass)
    && (width.value < 0.0 || height.value < 0.0 || length.value < 0.0 || mass.value < 0.0)
  }

  /** Converts the arguments left to right, failing with a TypeError at the
      first one that does not convert. */
  function ConvertAll(args: seq<Input>): (r: Result<seq<real>>)
    ensures r.Ok? <==> forall i :: 0 <= i < |args| ==> args[i].Number?
    ensures r.Ok? ==> |r.value| == |args| && forall i :: 0 <= i < |args| ==> r.value[i] == args[i].value
    ensures r.Err? ==> r.error == TypeError
  {
    if |args| == 0 then Ok([])
    else
      match args[0]
      case Unconvertible => Err(TypeError)
      case Number(x) =>
        match ConvertAll(args[1..])
        case Err(e) => Err(e)
        case Ok(rest) => Ok([x] + rest)
  }

  /** Converts all four arguments, and only then checks that none is negative. */
  function Validate(width: Input, height: Input, length: Input, mass: Input): (r: Result<Package>)
    ensures r == Err(TypeError) <==> AnyUnconvertible(width, height, length, mass)
    ensures r == Err(ValueError) <==> AnyNegative(width, height, length, mass)
    ensures r.Ok? ==> r.value == Package(width.value, height.value, length.value, mass.value)
    ensures r.Ok? ==> r.value.width >= 0.0 && r.value.height >= 0.0 && r.value.length >= 0.0 && r.value.mass >= 0.0
  {
    var xs :- ConvertAll([width, height, length, mass]);
    if xs[0] < 0.0 || xs[1] < 0.0 || xs[2] < 0.0 || xs[3] < 0.0 then Err(ValueError)
    else Ok(Package(xs[0], xs[1], xs[2], xs[3]))
  }

  /** The largest of three values. */
  function Max3(a: real, b: real, c: real): (r: real)
    ensures r >= a && r >= b && r >= c
    ensures r == a || r == b || r == c
  {
    var ab := if a >= b then a else b;
    if ab >= c then ab else c
  }

  /** A package is bulky when its volume or its largest dimension reaches its limit. */
  function IsBulky(width: real, height: real, length: real): (r: bool)
    ensures r <==> width * height * length >= VolumeLimit
                   || width >= DimensionLimit || height >= DimensionLimit || length >= DimensionLimit
  {
    var volume := width * height * length;
    volume >= VolumeLimit || Max3(width, height, length) >= DimensionLimit
  }

  /** A package is heavy when its mass reaches the limit. */
  predicate IsHeavy(mass: real) {
    mass >= MassLimit
  }

  /** The truth table from the two predicates to a stack. */
  function Dispatch(bulky: bool, heavy: bool): (r: Category)
    ensures r == Rejected <==> bulky && heavy
    ensures r == Special <==> bulky != heavy
    ensures r == Standard <==> !bulky && !heavy
  {
    if bulky && heavy then Rejected
    else if bulky || heavy then Special
    else Standard
  }

  /** The stack for a package whose measurements have passed validation. */
  function Classify(p: Package): (r: Category)
    ensures r == Rejected <==> IsBulky(p.width, p.height, p.length) && IsHeavy(p.mass)
    ensures r == Special <==> IsBulky(p.width, p.height, p.length) != IsHeavy(p.mass)
    ensures r == Standard <==> !IsBulky(p.width, p.height, p.length) && !IsHeavy(p.mass)
  {
    Dispatch(IsBulky(p.width, p.height, p.length), IsHeavy(p.mass))
  }

  /** The classifier's public entry point: validation, then classification. */
  function Sort(width: Input, height: Input, length: Input, mass: Input): (r: Result<Category>)
    ensures r == Err(TypeError) <==> AnyUnconvertible(width, height, length, mass)
    ensures r == Err(ValueError) <==> AnyNegative(width, height, length, mass)
    ensures r.Ok? <==> !AnyUnconvertible(width, height, length, mass) && !AnyNegative(width, height, length, mass)
    ensures r.Ok? ==> r.value == Classify(Package(width.value, height.value, length.value, mass.value))
  {
    var p :- Validate(width, height, length, mass);
    Ok(Classify(p))
  }
}
