# CustomOperators: the address similarity operator

This project models the one piece of logic in the CustomOperators Swift tutorial:

- the infix operator `≈` on `PersonalAddress`, which classifies two addresses into a `DegreeOfSimilarity`;
- the prefix squaring operator `**`.

The operator `≈` compares nine fields in a fixed order and keeps a `UInt8` counter of the fields that match:

- If the `country` fields differ, it returns `completely_different` at once.
- If `state` or `city` differs, it returns `slightly_similar` at once.
- If `area`, `landmark` or `streetName` differs, it returns `almost_the_same` at once.
- `postcode`, `buildingName` and `buildingNumber` only add to the counter.
- If no early return fires, a final switch maps the counter to an answer.

The Dafny model has two layers:

- `Wrappers.Option` stands for Swift's `String?`. Two absent values compare equal.
- `CustomOperators` holds the records, the operators and the proofs.

The operator is written twice:

- `ApproxEqual` is a method that follows the Swift code step by step. Its local counter has the type `UInt8`, a newtype over 0..255. Every `+= 1` therefore carries a proof that Swift's overflow trap cannot fire.
- `Similarity` is a pure function. It walks the comparison order `ComparisonOrder`. Each field has a verdict, given by `MismatchVerdict`: the answer returned at once when that field differs, or none when a mismatch only withholds a point. When the walk ends, `CountBucket` maps the count to an answer, as the switch does.

The method is proved equal to the function. The lemmas state the properties of `≈` in terms of the function.

The counter is always between 6 and 9 when control reaches the final switch, because six gating fields must all match first (`SwitchCount`). So the counter never overflows its `UInt8`. The `1...4` and `default` arms of the switch are kept for totality, but they cannot be taken.

## Model

| member | source | states |
|---|---|---|
| `CustomOperators.Square` | Sources/CustomOperators/CustomOperators.swift:50-52 | `**input` is never negative, is zero exactly when `input` is zero, and is at least `input` |
| `CustomOperators.ApproxEqual` | Sources/CustomOperators/CustomOperators.swift:150-220 | the step-by-step `≈` with its `UInt8` counter and early returns returns exactly `Similarity(lhsValue, rhsValue)`; no increment overflows the counter |
| `CustomOperators.MatchCount` | Sources/CustomOperators/CustomOperators.swift:151-208 | the number of matching fields is at most the number compared, and equals it exactly when every compared field matches |
| `CustomOperators.ShortCircuit` | Sources/CustomOperators/CustomOperators.swift:153-199 | once every earlier gating field matches, the first gating field that differs decides the answer, whatever comes after it |
| `CustomOperators.ReachesSwitch` | Sources/CustomOperators/CustomOperators.swift:159-219 | when no gating field differs, the answer is the switch applied to the starting count plus the number of matching fields |
| `CustomOperators.CompareSymmetric` | Sources/CustomOperators/CustomOperators.swift:153-208 | swapping the two addresses never changes the outcome of the comparison, from any starting count |
| `CustomOperators.CountryMismatch` | Sources/CustomOperators/CustomOperators.swift:153-156 | different countries give `completely_different`, whatever the other fields hold |
| `CustomOperators.RegionMismatch` | Sources/CustomOperators/CustomOperators.swift:161-173 | same country but a different state or city gives `slightly_similar` |
| `CustomOperators.LocalityMismatch` | Sources/CustomOperators/CustomOperators.swift:175-199 | same country, state and city but a different area, landmark or street gives `almost_the_same`, whatever the postcode |
| `CustomOperators.SwitchCount` | Sources/CustomOperators/CustomOperators.swift:151-219 | when the switch is reached, the counter is 9 minus the number of differing soft fields, so it lies in 6..9: it fits a `UInt8`, and the `1...4` and `default` arms cannot be taken |
| `CustomOperators.AllGatesPassed` | Sources/CustomOperators/CustomOperators.swift:175-216 | when all six gating fields match, the answer is `exactly_the_same` if at most one of postcode, building name and building number differs, and `almost_the_same` otherwise |
| `CustomOperators.CompletelyDifferentIffCountry` | Sources/CustomOperators/CustomOperators.swift:153-219 | `completely_different` is returned exactly when the countries differ (both directions) |
| `CustomOperators.Reflexive` | Sources/CustomOperators/CustomOperators.swift:202-216 | every address is `exactly_the_same` as itself, including one with no building name |
| `CustomOperators.Symmetric` | Sources/CustomOperators/CustomOperators.swift:153-208 | `a ≈ b` equals `b ≈ a` for all addresses |
| `CustomOperators.HomeOfficeExample` | Sources/CustomOperators/CustomOperators.swift:224-244 | the worked example, home against office, gives `almost_the_same`, because the street differs |

## Left out

- The operator and precedence-group declarations, including `AlmostEqualToPrecedence`. They fix syntax and fixity only, and have no behaviour to verify.
- The postfix `~>` operator. It returns a value's `description`, whose implementation is not part of this model.
- The `Person` example in the documentation of `~>`, and all documentation markup.
- CustomOperators.Square: modelled over unbounded `int` only. Swift's generic `Numeric` conformers, their overflow traps and floating-point squaring are not modelled.
- String equality is Dafny's equality of character sequences. Swift's Unicode canonical equivalence is not modelled.
