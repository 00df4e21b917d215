# Aura classifier and point scorer

A Dafny model of the decision logic of a web page that shows a developer's
"GitHub aura". From a profile record and its list of repositories,
`determineAura` picks a category. `calculateAuraPoints` then turns the same data
into a score between 0 and 10 000. Both functions sit in `src/pages/Result.jsx`.

- `Text` models the two string operations the bio test uses: ASCII
  `toLowerCase` and `includes`. `includes` is proved to find exactly the
  substrings.
- `Aura` models the profile and repository fields the core reads. It holds the
  category record and the `auraCategories` table of half-open follower bands
  `[min, max)`. It models `Array.prototype.find` over that table and
  `determineAura`, with its guard, bio override and band lookup. Point
  multipliers are kept in tenths, so 0.7 is stored as 7. The `|| 1` fallback
  is the function `Multiplier`. Descriptions and colour classes are opaque
  strings. They depend on the category type alone, so they are functions of
  it.
- `Points` models `calculateAuraPoints` as a method. The method builds `points`
  in the same steps as the source, in exact `real` arithmetic, and rounds with
  `Math.round`, written as floor(x + 1/2). The method is proved equal to a
  closed form, `AuraPoints`. That closed form counts in 1/500 of a point:
  (multiplier in tenths) × (2·min(followers, 10⁶) + 75·stars +
  150·public_repos) / 500. Bounds and monotonicity are proved about the closed
  form.

All counts (followers, public repositories, stars) are natural numbers.
Integers are unbounded, and the source never wraps.

What the live code (src/pages/Result.jsx:143-311) does not do:
- The classifier reads only the follower count, the bio and whether the
  repository list is empty. It computes a star total and a fork ratio
  (lines 157-161) and never uses them.
- There are no star thresholds inside a band. The scorer has no per-term
  caps and no bonuses. Its cap is 10 000.
- Star thresholds (lines 44-68) and a cap of 1000 (line 139) appear only in
  the commented-out earlier versions at lines 36-140. That is dead code and
  is not modelled.

## Model

| member | source | states |
|---|---|---|
| Text.LowerChar | src/pages/Result.jsx:264 | Lower-cases A–Z by the ASCII offset and leaves every other character alone. The result is never an upper-case letter. |
| Text.ToLower | src/pages/Result.jsx:264-265 | `toLowerCase` keeps the length. It maps each character by LowerChar, position by position. |
| Text.ToLowerIdempotent | src/pages/Result.jsx:264-265 | Lower-casing an already lower-cased bio changes nothing. |
| Text.Includes | src/pages/Result.jsx:264-265 | `includes(t)` is true only when `t` is no longer than the string. |
| Text.IncludesIff | src/pages/Result.jsx:264-265 | `includes(t)` holds exactly when `t` occurs at some index of the string. The proof covers both directions. |
| Text.IncludesAt | src/pages/Result.jsx:264-265 | Any occurrence of `t` makes `includes(t)` true. |
| Aura.Multiplier | src/pages/Result.jsx:294 | `pointMultiplier \|\| 1` is always positive. It equals the category's multiplier whenever that multiplier is present and non-zero. It is 1 (10 tenths) when the multiplier is absent or zero. |
| Aura.InBand | src/pages/Result.jsx:280 | The `find` test `followers >= min && followers < max` is half-open. A count below `min` or at or above a finite `max` is outside. Under an `Infinity` bound, every count from `min` up is inside. |
| Aura.FindBand | src/pages/Result.jsx:277-280 | `find` returns the first band holding `followers`. Every earlier band misses it. When no band holds it, the result is None. |
| Aura.LaterBandBelow | src/pages/Result.jsx:164-252 | In a contiguous ladder, a later band ends at or below where an earlier band starts. |
| Aura.LadderDisjoint | src/pages/Result.jsx:164-252 | No follower count lies in two bands of a ladder. |
| Aura.LadderOrdered | src/pages/Result.jsx:164-252 | A larger follower count never lands in a later (lower) band. |
| Aura.LadderCovers | src/pages/Result.jsx:164-252 | Every count at or above the lowest band's minimum lies in some band. |
| Aura.MultipliersFallFar | src/pages/Result.jsx:171-251 | If multipliers fall from each band to the next, a later band never has a larger multiplier than an earlier one. |
| Aura.AuraCategoriesLayout | src/pages/Result.jsx:164-259 | The table constant `AuraCategories` is the eleven-band constant `Ladder` followed by `NoobBand`, the `[0, 2)` Noob entry. |
| Aura.LadderLinks | src/pages/Result.jsx:166-246 | Each band's `max` is the previous band's `min`. |
| Aura.LadderMinsFall | src/pages/Result.jsx:166-246 | The first band is unbounded above. Lower ends fall strictly, down to 0. |
| Aura.LadderContiguous | src/pages/Result.jsx:166-246 | The eleven bands form a contiguous, non-empty, descending ladder that ends at 0. |
| Aura.LadderMultipliers | src/pages/Result.jsx:171-251 | Band multipliers strictly fall down the table: 1.5, 1.3, 1.2, …, 0.5, 0.4. |
| Aura.LadderCategories | src/pages/Result.jsx:165-252 | No ladder band is Noob. Each has a multiplier of at least 0.4. |
| Aura.AuraCategoriesShape | src/pages/Result.jsx:164-259 | Gathers the table facts the classifier relies on. |
| Aura.FindInLadder | src/pages/Result.jsx:277-281 | If a table starts with a ladder reaching down to the count, `find` stops inside the ladder, at the only band that holds the count. |
| Aura.BandLookup | src/pages/Result.jsx:277-281 | For every non-negative count, `find` returns the unique ladder band that holds it. The `[0, 2)` entry and the `\|\| auraCategories[length - 1]` fallback are never reached. |
| Aura.NoobRecord | src/pages/Result.jsx:148-154 | The guard's record `NoobCategory` has type Noob. It carries the analysis line "You need to grind" and multiplier 0.1. |
| Aura.CommunityBuilderRecord | src/pages/Result.jsx:267-273 | The override's record `CommunityBuilderCategory` has type Community Builder, no analysis line and multiplier 0.7. |
| Aura.TotalStars | src/pages/Result.jsx:157-160 | The star total (the same `reduce` as at lines 288-291) is 0 for no repositories. It is at least each repository's `stargazers_count`. |
| Aura.ForkCount | src/pages/Result.jsx:161 | The fork count never exceeds the repository count, so the fork ratio is at most 1. |
| Aura.NoobGuard | src/pages/Result.jsx:147 | When the guard does not fire, there are at least 3 followers and at least one repository. So the fork ratio's division at line 161 is safe. |
| Aura.BioOverride | src/pages/Result.jsx:262-266 | The override fires only on a non-null bio at least as long as the keywords (11 characters). A null bio never triggers it. |
| Aura.DetermineAura | src/pages/Result.jsx:143-284 | Guard (≤ 2 followers or no repositories) gives exactly the Noob record with multiplier 0.1. Otherwise a bio match gives Community Builder (0.7) at any follower count. Otherwise the result is the category of a ladder band holding the follower count. The type is Noob exactly when the guard fires. A multiplier is always present and positive, and is at least 0.4 off the guard. The fork-ratio division is well defined. |
| Aura.DetermineAuraDependsOnly | src/pages/Result.jsx:143-284 | The category depends only on the follower count, the bio and whether the repository list is empty. |
| Aura.MultiplierMonotone | src/pages/Result.jsx:143-284 | With the bio and the emptiness of the repository list fixed, the multiplier never falls as followers grow. |
| Aura.BioOverrideIgnoresCase | src/pages/Result.jsx:262-266 | The bio test gives the same answer for a bio and its lower-cased form. |
| Aura.BioOverrideSameLower | src/pages/Result.jsx:262-266 | Two bios with the same lower-cased form get the same answer. |
| Aura.OpenSourceContributorBio | src/pages/Result.jsx:262-266 | The bio "Open Source Contributor" triggers the override. |
| Aura.CommunityBuilderOverridesBands | src/pages/Result.jsx:262-274 | With 200 000 followers, at least one repository and that bio, the result is Community Builder. |
| Aura.FewFollowersAreNoob | src/pages/Result.jsx:147-155 | One follower gives Noob, even with 999 999 stars. |
| Aura.NoReposAreNoob | src/pages/Result.jsx:147-155 | 50 000 followers and no repositories give Noob. |
| Aura.HundredTwentyFollowersBudding | src/pages/Result.jsx:237-244 | 120 followers, one repository and an empty bio give Budding Developer. |
| Points.Min | src/pages/Result.jsx:298 | `Math.min` is the smaller of its two arguments. |
| Points.Round | src/pages/Result.jsx:310 | `Math.round(n/d)` is the integer r with r ≤ n/d + 1/2 < r + 1. |
| Points.MathRoundAgrees | src/pages/Result.jsx:310 | floor(x + 1/2) on x = n/500 in exact reals equals Round(n, 500). |
| Points.Fiftieths | src/pages/Result.jsx:296-304 | The integer count of fiftieths, divided by 50, is exactly min(followers, 10⁶)/25 + 1.5·stars + 3·public_repos. |
| Points.ScaledProduct | src/pages/Result.jsx:307 | The pre-multiplier sum times the multiplier is exactly the closed form's count of 1/500 points. |
| Points.AccumulationAgrees | src/pages/Result.jsx:296-310 | The source's step-by-step real sum, multiplied and rounded, equals Round of the closed form. |
| Points.Score | src/pages/Result.jsx:296-310 | The rounded, capped score always lies in [0, 10 000]. |
| Points.AuraPoints | src/pages/Result.jsx:286-311 | The points for any profile and repository list lie in [0, 10 000]. |
| Points.CalculateAuraPoints | src/pages/Result.jsx:286-311 | Accumulating `points` in the source's order, multiplying, rounding and capping returns exactly AuraPoints. |
| Points.RoundMonotone | src/pages/Result.jsx:310 | Rounding preserves order. |
| Points.ScoreMonotone | src/pages/Result.jsx:296-310 | The score never falls when followers, stars, public repositories or the multiplier grow. |
| Points.AuraPointsMonotone | src/pages/Result.jsx:286-311 | With the bio and the emptiness of the repository list fixed, the points never fall when followers, total stars or public repositories grow. |
| Points.TotalStarsAppend | src/pages/Result.jsx:288-291 | The star total of two lists joined is the sum of their star totals. |
| Points.AddingRepoNeverLowers | src/pages/Result.jsx:286-311 | Adding a repository never lowers the points. This includes the first one, which lifts the no-repository guard. |
| Points.MillionFollowersReachCap | src/pages/Result.jsx:298-310 | With at least 1 000 000 followers and one repository, the points are exactly the 10 000 cap, whatever the bio. |
| Points.EmptyProfileScoresZero | src/pages/Result.jsx:286-311 | 0 followers, 0 public repositories and no repositories give Noob and 0 points. |

## Left out

- `fetchProfileData` (src/pages/Result.jsx:326-429) is network I/O and is not modelled. This covers the fetches, JSON decoding, auth headers, rate-limit headers and error messages. The model takes the decoded profile and repository records as parameters.
- Contribution counting (src/pages/Result.jsx:394-408) reads the wall clock, and its result is never shown. It is not modelled.
- `shareOnTwitter` (src/pages/Result.jsx:313-324) is URL encoding and `window.open`, which are browser calls. It is not modelled.
- React state, effects and JSX rendering are user interface and are not modelled. This covers Result.jsx, Home.jsx, LoadingScreen.jsx, ErrorBoundary.jsx and App.jsx.
- src/services/github.js is a fetch wrapper that nothing here imports. It is not part of this model.
- The commented-out classifier and scorer (src/pages/Result.jsx:36-140) are dead code and are not modelled.
- Points.CalculateAuraPoints: computes in exact rationals, not IEEE-754 doubles. The multipliers 0.1 … 1.5 and the products are exact here. JavaScript's results may differ by one point where the exact value is within rounding error of a .5 boundary.
- Text.ToLower: lower-cases ASCII A–Z only. It does not model Unicode case mapping.
- Profile fields the core never reads (`login`, `created_at`, and the other API fields) are not part of the records. So are repository fields other than `stargazers_count` and `fork`.
- Missing or non-numeric API fields are not modelled. JavaScript would turn them into `NaN` or `undefined`. Counts are natural numbers.
