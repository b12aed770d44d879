# Package sorter — a verified model

The package sorter takes four measurements of a package (width, height and
length in centimetres, mass in kilograms) and sends the package to one of
three stacks for a robotic sorting line:

- `STANDARD` — neither bulky nor heavy;
- `SPECIAL` — bulky or heavy, but not both;
- `REJECTED` — bulky and heavy.

A package is *bulky* when its volume is at least 1,000,000 cm³ or any one
dimension is at least 150 cm, and *heavy* when its mass is at least 20 kg.
All three thresholds are inclusive. Before classifying, the sorter converts
each of the four arguments to a number. If any argument does not convert, it
raises `TypeError`. Only once all four have converted does it check their
sign, and a negative value raises `ValueError`.

The model has three modules:

- `PackageSorter` (`package_sorter.dfy`) holds the data model and the pipeline.
  - `Input` is an argument as supplied: `Number(r)` or `Unconvertible`.
  - `Package` holds the four converted measurements.
  - `Category` is the stack, with its textual `Label`.
  - `Result` carries either a value or a `SortError` (`TypeError` or `ValueError`).
  - The pipeline is `ConvertAll`, `Validate`, `IsBulky` (through `Max3`),
    `IsHeavy`, `Dispatch`, `Classify` and the entry point `Sort`.
- `PackageSorterProperties` (`properties.dfy`) proves the lemmas. They cover
  error precedence, threshold inclusivity, completeness of the truth table,
  symmetry in the three dimensions and monotonicity in the measurements.
- `PackageSorterScenarios` (`scenarios.dfy`) holds the concrete packages
  from the repository's unit tests, with their outcomes, one lemma per group
  of tests. `PrecedenceScenario` adds two packages the unit tests do not
  cover: an argument that does not convert beside a negative one.

Measurements are exact reals. Python's `float()` coercion is abstract: each
argument either converts to a given real or it does not. The repository's
behaviour is deterministic and side-effect free. Every Dafny function is
deterministic by construction, so determinism needs no separate lemma.

The doc comment of `sort` (package_sorter.py:112-117) gives two examples that
disagree with its code and with the unit tests. It says `(100, 100, 100, 10)`
gives `STANDARD`, but the code gives `SPECIAL`. It says `(100, 100, 100, 20)`
gives `SPECIAL`, but the code gives `REJECTED`. The model follows the code;
see `PackageSorterScenarios.SpecialScenarios` and
`PackageSorterScenarios.RejectedScenarios`.

## Model

| member | source | states |
|---|---|---|
| `PackageSorter.ConvertAll` | package_sorter.py:35-41 | Conversion succeeds exactly when every argument converts; the converted list keeps the length and the values of the arguments in order; any failure is a TypeError |
| `PackageSorter.Validate` | package_sorter.py:17-47 | TypeError exactly when some argument does not convert; ValueError exactly when all convert and one is negative; otherwise the converted values come back unchanged and are all non-negative |
| `PackageSorter.Max3` | package_sorter.py:67 | The result is one of the three dimensions and at least as large as each |
| `PackageSorter.Category.Label` | package_sorter.py:129-134 | The stack names returned are `STANDARD`, `SPECIAL` and `REJECTED`, and each name belongs to exactly one stack |
| `PackageSorter.IsBulky` | package_sorter.py:66-67 | Bulky exactly when the volume reaches 1,000,000 or some single dimension reaches 150 |
| `PackageSorter.Dispatch` | package_sorter.py:129-134 | REJECTED exactly when bulky and heavy, SPECIAL exactly when exactly one holds, STANDARD exactly when neither holds |
| `PackageSorter.Classify` | package_sorter.py:124-134 | The stack of a validated package follows the bulky/heavy truth table |
| `PackageSorter.Sort` | package_sorter.py:121-134 | TypeError exactly when some argument does not convert; ValueError exactly when all convert and one is negative; otherwise a stack, the one given by the truth table on the converted values |
| `PackageSorterProperties.ExactlyOneOutcome` | package_sorter.py:121-134 | The inputs fall into exactly one of five cases: an argument that does not convert, a negative value, or an accepted package that is bulky and heavy, only one of the two, or neither. Each case has its own outcome (TypeError, ValueError, REJECTED, SPECIAL, STANDARD), so nothing is classified by default |
| `PackageSorterProperties.ConversionErrorFirst` | package_sorter.py:35-45 | A failed conversion yields TypeError whatever the other arguments are, negative ones included |
| `PackageSorterProperties.NegativeIsValueError` | package_sorter.py:43-45 | When all arguments convert and one is negative, the result is ValueError and no stack |
| `PackageSorterProperties.ValidateKeepsValues` | package_sorter.py:43-47 | Non-negative converted measurements pass validation unchanged |
| `PackageSorterProperties.BulkyIsInclusive` | package_sorter.py:66-67 | A volume of exactly 1,000,000 or a dimension of exactly 150 is bulky; 100 x 100 x 99.99 and 149.99 x 50 x 50 are not |
| `PackageSorterProperties.HeavyThreshold` | package_sorter.py:70-82 | Heaviness is upward closed with least mass exactly 20: 20 is heavy, every mass below 20 (19.99 included) is not, and adding mass keeps a package heavy |
| `PackageSorterProperties.SmallPackageNotBulky` | package_sorter.py:66-67 | A non-negative package with every dimension below 100 is never bulky |
| `PackageSorterProperties.VolumeMonotone` | package_sorter.py:66 | The volume of non-negative dimensions grows with each dimension |
| `PackageSorterProperties.BulkyMonotone` | package_sorter.py:66-67 | Enlarging a non-negative package in any dimension never makes it stop being bulky |
| `PackageSorterProperties.ClassifyMonotone` | package_sorter.py:124-134 | A non-negative package at least as large and as heavy as another non-negative package never goes to a less restrictive stack |
| `PackageSorterProperties.SortIgnoresDimensionOrder` | package_sorter.py:66-67 | The outcome is the same for all six orders of width, height and length |
| `PackageSorterProperties.LabelsDistinct` | package_sorter.py:129-134 | The three stack names are distinct, so the label identifies the stack |
| `PackageSorterScenarios.StandardScenarios` | test_package_sorter.py:15-30 | The unit tests' small, medium and just-under-threshold packages go to the standard stack |
| `PackageSorterScenarios.SpecialScenarios` | test_package_sorter.py:33-63 | The unit tests' packages that are bulky or heavy but not both go to the special stack |
| `PackageSorterScenarios.RejectedScenarios` | test_package_sorter.py:66-80 | The unit tests' packages that are both bulky and heavy are rejected |
| `PackageSorterScenarios.EdgeScenarios` | test_package_sorter.py:83-103 | The unit tests' zero, very large and fractional packages, all-zero included (STANDARD), get the expected stacks |
| `PackageSorterScenarios.ErrorScenarios` | test_package_sorter.py:106-124 | The unit tests' negative measurements give ValueError, and an argument that does not convert gives TypeError |
| `PackageSorterScenarios.BoundaryScenarios` | test_package_sorter.py:131-153 | Each threshold reached exactly puts the unit tests' package over it, and each value just below does not |
| `PackageSorterScenarios.PrecedenceScenario` | package_sorter.py:35-45 | An argument that does not convert beside a negative one gives TypeError, not ValueError; these two packages are not in the unit tests |
| `PackageSorterScenarios.LabelScenarios` | package_sorter.py:129-134 | The stacks are named `STANDARD`, `SPECIAL` and `REJECTED` |

## Left out

- example.py only prints sample classifications. It has no logic of its own.
- The unittest runner `run_tests` (test_package_sorter.py:156-171) is test plumbing. The individual test cases appear as the scenario lemmas. The numeric-string test (test_package_sorter.py:126-128) is the `(100, 100, 100, 10)` package once converted.
- Python's `float()` grammar for strings and its handling of `None` and other types are not modelled. That is a library call, so each argument is abstractly either `Number(r)` or `Unconvertible`. A numeric string such as `"100"` is therefore simply `Number(100.0)`.
- `float()` raises `OverflowError` for an integer too large for a double. The `except` clause does not catch it, so it escapes as `OverflowError`. The abstract conversion has no such outcome.
- IEEE-754 double arithmetic is not modelled. Measurements are exact reals, so there is no rounding in `w*h*l`, no infinities, and no NaN. In the source a NaN passes the `< 0` check.
- SortIgnoresDimensionOrder: holds for exact reals only; in the source it can also fail for finite inputs. Rounding of `(w*h)*l` depends on the order of the factors: `(101.82306870002608, 92.04454316220097, 106.69787546100657)` has volume `1000000.0` in double arithmetic and with mass 10 is SPECIAL, while `(92.04454316220097, 106.69787546100657, 101.82306870002608)` has volume `999999.9999999999` and is STANDARD. The order of conversion matters too: `(10**400, "abc", 1, 1)` escapes as `OverflowError` from the first conversion, while `("abc", 10**400, 1, 1)` raises TypeError. With a NaN the order of the dimensions matters as well: Python's `max` keeps a NaN given first, so `(nan, 200, 50, 10)` is STANDARD while `(200, nan, 50, 10)` is SPECIAL.
- The exception messages and the exception chaining (`from e`) are not modelled. Only the kind of error is.
- The doc-comment examples at package_sorter.py:112-117 are not modelled, because they contradict the code.
