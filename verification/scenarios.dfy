/**
  Concrete packages with the stacks or errors the classifier gives them,
  one lemma per group of the repository's unit tests.
 */
module PackageSorterScenarios {
  import opened PackageSorter

  /** Small and medium packages, and packages just under one threshold, go to the standard stack. */
  lemma StandardScenarios()
    ensures Sort(Number(10.0), Number(10.0), Number(10.0), Number(5.0)) == Ok(Standard)
    ensures Sort(Number(100.0), Number(100.0), Number(99.0), Number(10.0)) == Ok(Standard)
    ensures Sort(Number(149.0), Number(50.0), Number(50.0), Number(19.0)) == Ok(Standard)
    ensures Sort(Number(50.0), Number(50.0), Number(50.0), Number(19.99)) == Ok(Standard)
  {
  }

  /** Packages that are bulky or heavy, but not both, need special handling;
      a volume of exactly one million is bulky. */
  lemma SpecialScenarios()
    ensures Sort(Number(100.0), Number(100.0), Number(100.0), Number(10.0)) == Ok(Special)
    ensures Sort(Number(150.0), Number(50.0), Number(50.0), Number(10.0)) == Ok(Special)
    ensures Sort(Number(50.0), Number(150.0), Number(50.0), Number(10.0)) == Ok(Special)
    ensures Sort(Number(50.0), Number(50.0), Number(150.0), Number(10.0)) == Ok(Special)
    ensures Sort(Number(150.0), Number(150.0), Number(50.0), Number(5.0)) == Ok(Special)
    ensures Sort(Number(50.0), Number(50.0), Number(50.0), Number(20.0)) == Ok(Special)
    ensures Sort(Number(10.0), Number(10.0), Number(10.0), Number(100.0)) == Ok(Special)
    ensures Sort(Number(100.0), Number(100.0), Number(100.01), Number(19.0)) == Ok(Special)
  {
  }

  /** Packages that are both bulky and heavy are rejected. */
  lemma RejectedScenarios()
    ensures Sort(Number(150.0), Number(50.0), Number(50.0), Number(20.0)) == Ok(Rejected)
    ensures Sort(Number(100.0), Number(100.0), Number(100.0), Number(20.0)) == Ok(Rejected)
    ensures Sort(Number(200.0), Number(200.0), Number(200.0), Number(50.0)) == Ok(Rejected)
    ensures Sort(Number(150.0), Number(100.0), Number(100.0), Number(20.0)) == Ok(Rejected)
  {
  }

  /** Zero measurements, very large measurements and fractional measurements. */
  lemma EdgeScenarios()
    ensures Sort(Number(0.0), Number(0.0), Number(0.0), Number(0.0)) == Ok(Standard)
    ensures Sort(Number(150.0), Number(50.0), Number(50.0), Number(0.0)) == Ok(Special)
    ensures Sort(Number(0.0), Number(0.0), Number(0.0), Number(20.0)) == Ok(Special)
    ensures Sort(Number(10000.0), Number(10000.0), Number(10000.0), Number(1000.0)) == Ok(Rejected)
    ensures Sort(Number(50.0), Number(50.0), Number(50.0), Number(19.9)) == Ok(Standard)
    ensures Sort(Number(150.1), Number(50.0), Number(50.0), Number(20.1)) == Ok(Rejected)
  {
  }

  /** Negative measurements give a ValueError; an argument that does not convert gives a TypeError. */
  lemma ErrorScenarios()
    ensures Sort(Number(-10.0), Number(50.0), Number(50.0), Number(10.0)) == Err(ValueError)
    ensures Sort(Number(50.0), Number(50.0), Number(50.0), Number(-5.0)) == Err(ValueError)
    ensures Sort(Unconvertible, Number(50.0), Number(50.0), Number(10.0)) == Err(TypeError)
  {
  }

  /** Each threshold reached exactly, and each just missed. */
  lemma BoundaryScenarios()
    ensures Sort(Number(100.0), Number(100.0), Number(100.0), Number(10.0)) == Ok(Special)
    ensures Sort(Number(100.0), Number(100.0), Number(99.99), Number(10.0)) == Ok(Standard)
    ensures Sort(Number(150.0), Number(50.0), Number(50.0), Number(10.0)) == Ok(Special)
    ensures Sort(Number(149.99), Number(50.0), Number(50.0), Number(10.0)) == Ok(Standard)
    ensures Sort(Number(50.0), Number(50.0), Number(50.0), Number(20.0)) == Ok(Special)
    ensures Sort(Number(50.0), Number(50.0), Number(50.0), Number(19.99)) == Ok(Standard)
  {
  }

  /** An argument that does not convert beside a negative one: the conversion
      error wins, because every argument is converted before any sign is checked. */
  lemma PrecedenceScenario()
    ensures Sort(Unconvertible, Number(-50.0), Number(50.0), Number(10.0)) == Err(TypeError)
    ensures Sort(Number(-10.0), Number(50.0), Number(50.0), Unconvertible) == Err(TypeError)
  {
  }

  /** The stack names returned for the three categories. */
  lemma LabelScenarios()
    ensures Standard.Label() == "STANDARD"
    ensures Special.Label() == "SPECIAL"
    ensures Rejected.Label() == "REJECTED"
  {
  }
}
