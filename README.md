# gui_verification decision logic in Dafny

`gui_verification` is a Python library that checks web pages through
Selenium. Each checker asks the browser for element boxes, computed styles,
screenshots, timings or state snapshots. It then turns those observations
into pass/fail check records. Those records are gathered into a
`VerificationResult` with status PASS, FAIL, WARNING or SKIP.

This project models the deterministic part of every checker. Every browser
observation is an input value:

- a found element's box or state, or the exception the lookup raised
  (`Outcome<T>`);
- a computed style;
- a pixel grid;
- a measured time.

The model covers:

- **Geometry** (`layout.dfy`, `responsive.dfy`):
  - alignment of boxes along an axis within a tolerance;
  - grid rows and columns;
  - position and size tolerances;
  - the right-of and below relations;
  - the overlap predicate and the pairwise overlap scan;
  - viewport fit, size appropriateness and horizontal scroll;
  - breakpoint midpoints and visibility expectations.
- **Colour** (`colors.dfy`, `accessibility.dfy`):
  - `ColorUtils` hex/RGB conversion;
  - the CSS colour parser;
  - relative luminance and the contrast ratio of WCAG 2.x;
  - font-size units and the large-text rule;
  - the accessible-name precedence chain;
  - the ARIA and contrast checkers.
- **Bitmap comparison** (`visual.dfy`): mean squared error, similarity and the
  differing-sample count of `ScreenshotComparator`, plus the `ElementDetector`
  status logic.
- **Result bookkeeping** (`core.dfy`, `config.dfy`):
  - the result log of a verifier and of a suite;
  - per-status summaries;
  - the verify loop every checker runs;
  - the overall status of the top-level verifiers;
  - `VerificationConfig` and the report summary.
- **Performance and interaction** (`performance.dfy`, `interaction.dfy`):
  - page-load, navigation, resource and animation decisions;
  - the checks that compare click and hover snapshots.

Shared modules:

- `wrappers.dfy`: `Option` and `Outcome`.
- `text.dfy`: ASCII models of `strip`, `lower`, `in`, `str(n)` and `float()`.
  Whitespace is what `str.isspace` accepts among ASCII characters: space,
  `\t`, `\n`, `\v`, `\f`, `\r` and the separators U+001C..U+001F.
- `arith.dfy`: one lemma about real quotients.

Where the source changes state step by step, the model does too. Examples:

- the verifier and suite result logs are classes;
- the pixel loop is a method;
- the overlap scan is a method;
- `_check_click_results` appends check by check.

Each such method is proved equal to a specification function. The
properties are then proved about that function.

The gamma branch `((c + 0.055) / 1.055) ** 2.4` of the luminance formula is
passed in as a function-valued parameter. Its precondition `ValidGamma`
requires three things above the linear threshold 0.03928:

- the value is positive;
- it is at most 1 up to 1;
- it is exactly 1 at 1.

Nothing more is assumed; in particular the curve need not be monotone. The
linear branch `c / 255 / 12.92` is exact.

`ContrastChecker._parse_color` and `_calculate_contrast_ratio` repeat
`ColorUtils.parse_css_color` and `calculate_contrast_ratio` line for line.
The model therefore defines each once, as `Colors.ParseCssColor` and
`Colors.ContrastRatio`, and the contrast checker calls them.

The six top-level verifiers aggregate their sub-results in the same way:

- `LayoutVerifier`, `AccessibilityVerifier`, `VisualVerifier`,
  `ResponsiveVerifier`, `PerformanceVerifier` and `InteractionVerifier`.

That rule is `Core.OverallStatus`. The verify loops of the per-element
checkers are `Core.VerifyEach`, `Core.Conclude` and `Core.Tally`, with each
checker's own entry function.

## Model

| member | source | states |
|---|---|---|
| Core.StatusValue | gui_verification/core.py:13-18 | each status has one of the four values pass/fail/warning/skip, and reading the value back gives the status |
| Core.AllFound | gui_verification/layout.py:473-479 | looking up a list of elements yields every box in order exactly when every lookup succeeds; otherwise it yields the first lookup's exception |
| Core.CountStatusTotal | gui_verification/core.py:13-18 | the counts of the four statuses add up to the number of results |
| Core.CountStatusAll | gui_verification/core.py:81-86 | the count of a status equals the length exactly when every result has that status |
| Core.CountStatusNone | gui_verification/core.py:81-86 | the count of a status is zero exactly when no result has it |
| Core.SummaryTotal | gui_verification/core.py:81-86 | a summary has exactly the four status keys, and its counts add up to the number of results |
| Core.CountStatus | gui_verification/core.py:84-85 | the number of results with a status is at most the number of results |
| Core.SummaryStep | gui_verification/core.py:84-85 | counting one more result increments only the count of its status |
| Core.TotalDurationStep | gui_verification/core.py:121-124 | one more result adds its duration to the total, or nothing when it has none |
| Core.CountWhereAll | gui_verification/layout.py:93-94 | every entry passes exactly when the passing count equals the number of entries |
| Core.Tally | gui_verification/layout.py:76-94 | the loop's all-passed flag holds exactly when every entry passed; its passing count is the number of passing entries; the flag holds exactly when that count is the length |
| Core.Conclude | gui_verification/layout.py:93-101 | the verdict is PASS exactly when every entry passed and FAIL otherwise; the message is `prefix k/n suffix` with k the passing count |
| Core.VerifyEach | gui_verification/layout.py:64-101 | with no inputs the verdict is WARNING with the checker's message; otherwise there is one entry per input, in order, and the verdict is PASS exactly when every entry passed, else FAIL, with the k/n message |
| Core.OverallStatus | gui_verification/layout.py:38-47 | PASS exactly when every sub-result passed (including none); FAIL exactly when some sub-result failed; WARNING exactly when some sub-result did not pass and none failed; never SKIP |
| Core.Recorded | gui_verification/core.py:53-71 | the recorded result carries the duration; when `verify` raised it is a FAIL named after the verifier, with the error in its message; otherwise it is the verifier's own result |
| Core.BaseVerifier.constructor | gui_verification/core.py:44-46 | a new verifier has an empty result log |
| Core.BaseVerifier.RunVerification | gui_verification/core.py:53-71 | exactly one result is appended, whether `verify` returned or raised, and it is the one returned |
| Core.BaseVerifier.GetResults | gui_verification/core.py:73-75 | returns the log as a value, which later changes to the log do not affect |
| Core.BaseVerifier.ClearResults | gui_verification/core.py:77-79 | the log is empty afterwards |
| Core.BaseVerifier.GetSummary | gui_verification/core.py:81-86 | one key per status, each counting the results with that status |
| Core.RecordingsIndex | gui_verification/core.py:105-107 | the i-th collected result is what verifier i recorded |
| Core.VerificationSuite.constructor | gui_verification/core.py:92-95 | a new suite has its name, no verifiers and no results |
| Core.VerificationSuite.AddVerifier | gui_verification/core.py:97-99 | the verifier is appended and nothing else changes |
| Core.VerificationSuite.RunAll | gui_verification/core.py:101-109 | earlier results are discarded; afterwards there is exactly one result per verifier, in insertion order; each verifier's own log has grown by what it recorded |
| Core.VerificationSuite.GetSuiteSummary | gui_verification/core.py:111-133 | the name, total_checks equal to the number of results, per-status counts of the results, the summed durations, and one entry per verifier in order holding its own summary |
| Config.PostInit | gui_verification/config.py:48-59 | each list field left None receives its default; a list that was given is kept; every other field is unchanged |
| Config.PostInitIdempotent | gui_verification/config.py:48-59 | filling in twice is the same as filling in once |
| Config.Default | gui_verification/config.py:19-59 | the declared defaults: 0.95, 5, 5/5/5, 4.5/3.0, 3000/2000/1000/500/30, 10, 10/1/0.5, and the default ARIA list and viewports |
| Config.ToDict | gui_verification/config.py:61-63 | one entry per field, under the field's Python name |
| Config.FromDict | gui_verification/config.py:65-68 | a key that names no field raises; a constructed config is always filled in |
| Config.FromDictToDict | gui_verification/config.py:61-68 | `from_dict(to_dict(c))` succeeds with c filled in, and it is c itself for every config built by the constructor |
| Config.FromEmptyDict | gui_verification/config.py:65-68 | `from_dict({})` is the default config |
| Config.GenerateSummary | gui_verification/config.py:174-191 | total is the number of results; the four counts are the per-status counts and add up to the total; the success rate lies in [0, 100], is 0 without results, and is 100 exactly when there are results and all passed |
| Config.Percentage | gui_verification/config.py:182 | a share as a percentage lies in [0, 100] and is 100 exactly when the part is the whole of a non-empty total |
| Config.ResultToDict | gui_verification/config.py:255-264 | name, message, details and duration are copied unchanged, and the status becomes its value, which reads back as the status |
| Colors.TrimHashes | gui_verification/utils.py:205 | a suffix of the input that does not start with `#` |
| Colors.HexPair | gui_verification/utils.py:208 | two hexadecimal digits read as a value below 256 |
| Colors.HexToRgb | gui_verification/utils.py:203-211 | a colour exactly when, after removing every leading `#`, exactly six hexadecimal digits remain; its channels lie in 0..255 |
| Colors.HexDigits | gui_verification/utils.py:216 | the hexadecimal digits of a number are non-empty and lower-case |
| Colors.HexFieldByte | gui_verification/utils.py:216 | `{:02x}` of a value below 256 is exactly its two lower-case hex digits |
| Colors.RgbToHexFormat | gui_verification/utils.py:214-216 | for channels 0..255, `rgb_to_hex` writes `#` and two lower-case hex digits per channel |
| Colors.HexRoundTrip | gui_verification/utils.py:203-216 | for channels 0..255, `hex_to_rgb(rgb_to_hex(c)) == c` |
| Colors.HexRgbOfRgbToHex | gui_verification/utils.py:203-216 | the six digits `rgb_to_hex` writes are hexadecimal and read back as the colour |
| Colors.RgbToHexOfHexToRgb | gui_verification/utils.py:203-216 | whatever `hex_to_rgb` accepts, `rgb_to_hex` writes back as `#` and the lower-cased digits |
| Colors.Linearize | gui_verification/utils.py:221-226 | a linearised channel is non-negative, at most 1 for 0..255, 0 at 0 and 1 at 255 |
| Colors.Luminance | gui_verification/utils.py:219-228 | luminance is non-negative, at most 1 for 0..255, 0 for black and 1 for white |
| Colors.Ratio | gui_verification/utils.py:236-239 | the ratio is at least 1, and exactly 1 when the luminances are equal |
| Colors.RatioAtLeastOne | gui_verification/utils.py:236-239 | lighter-plus-0.05 over darker-plus-0.05 is at least 1, and exactly 1 when the luminances are equal |
| Colors.ContrastRatio | gui_verification/utils.py:231-239 | the contrast ratio is at least 1, and exactly 1 when the two luminances are equal |
| Colors.ContrastSymmetric | gui_verification/utils.py:231-239 | the contrast ratio does not depend on the order of the colours |
| Colors.ContrastBlackWhite | gui_verification/utils.py:219-239 | black against white has ratio 21 |
| Colors.ContrastAtMost21 | gui_verification/utils.py:219-239 | for channels 0..255 no ratio exceeds 21 |
| Colors.RatioAtMost21 | gui_verification/utils.py:236-239 | for luminances in [0, 1] the ratio is at most 21 |
| Colors.IsColorAccessible | gui_verification/utils.py:242-248 | returns the contrast ratio of the two colours (at least 1), and it is accessible exactly when the ratio is at least 3.0 for large text or 4.5 otherwise |
| Colors.LargeTextIsEasier | gui_verification/utils.py:247 | a pair accessible for normal text is accessible for large text, and black on white is accessible |
| Colors.DigitRun | gui_verification/utils.py:259 | `\d*`: the maximal run of digits from a position |
| Colors.SpaceRun | gui_verification/utils.py:259 | `\s*`: the maximal run of whitespace from a position |
| Colors.AlphaRun | gui_verification/utils.py:264 | `[\d.]*`: the maximal run of digits and dots from a position |
| Colors.HexMatch | gui_verification/utils.py:269-271 | the hex grammar matches exactly when the string starts with `#` and six hexadecimal digits |
| Colors.ParseCssColor | gui_verification/utils.py:251-273 | the empty string and `transparent` give None |
| Colors.ParseRgbText | gui_verification/utils.py:259-261 | any string starting `rgb(r, g, b)` parses as (r, g, b), whatever follows |
| Colors.ParseRgbaText | gui_verification/utils.py:264-266 | any string starting `rgba(r, g, b, alpha)` parses as (r, g, b); the alpha is dropped |
| Colors.ParseHexText | gui_verification/utils.py:269-271 | `rgb_to_hex(c)`, and anything after it, parses back as c |
| Colors.ParseHexWithTrailer | gui_verification/utils.py:269-271 | `#ff0000zz` is (255, 0, 0), because matching is anchored only at the start |
| Colors.ParseShortOrBareHex | gui_verification/utils.py:269-273 | `#fff` and `ff0000` are not colours |
| Colors.ParseOutOfRange | gui_verification/utils.py:259-261 | `rgb(300, 0, 0)` is (300, 0, 0), because no range check is made |
| Colors.ParseTransparentBlack | gui_verification/utils.py:264-266 | `rgba(0, 0, 0, 0)` is black |
| Colors.NoSpaceAfterParenthesis | gui_verification/utils.py:259 | `rgb( 1,2,3)` is not a colour, because whitespace is allowed only after the commas |
| Accessibility.LabelledByName | gui_verification/accessibility.py:232-240 | a name comes from `aria-labelledby` exactly when the attribute is non-empty and its target was found; that name is stripped |
| Accessibility.AccessibleName | gui_verification/accessibility.py:225-258 | every name returned is stripped |
| Accessibility.FirstSome | gui_verification/accessibility.py:225-258 | the first available candidate, and there is one exactly when some candidate is available |
| Accessibility.AccessibleNameIsFirstCandidate | gui_verification/accessibility.py:225-258 | the name is the first available of aria-label, aria-labelledby target, visible text, img alt (even when empty) and placeholder, in that order |
| Accessibility.EmptyNameSources | gui_verification/accessibility.py:242-251 | an empty name comes only from a blank `alt` on an `img` or a blank labelled-by target |
| Accessibility.NoNameIff | gui_verification/accessibility.py:225-258 | there is no name exactly when none of the five sources is available |
| Accessibility.AttributeChecks | gui_verification/accessibility.py:157-170 | one check per required attribute, in order, passing exactly when the element carries it |
| Accessibility.RoleChecks | gui_verification/accessibility.py:172-189 | at most one role check, and it fails exactly for an `onclick` div/span with no role |
| Accessibility.HeadingChecks | gui_verification/accessibility.py:191-198 | a tag starting with `h` raises exactly when its second character is not a digit; otherwise every heading check passes |
| Accessibility.AltChecks | gui_verification/accessibility.py:200-221 | at most one alt check, and it fails exactly for an `img` without an `alt` attribute |
| Accessibility.ElementAccessibility | gui_verification/accessibility.py:127-223 | a failed lookup raises its exception; a found element raises exactly when the heading check raises; a result names the selector |
| Accessibility.AppendAttributeChecks | gui_verification/accessibility.py:158-170 | the loop appends exactly the attribute checks |
| Accessibility.CheckElementAccessibility | gui_verification/accessibility.py:127-223 | the imperative check equals ElementAccessibility |
| Accessibility.PassedIffOtherChecksPass | gui_verification/accessibility.py:142-221 | an element passes exactly when it has a truthy name, is not an unlabelled `onclick` div/span, and is not an `img` without `alt`; missing ARIA attributes do not decide |
| Accessibility.RequiredAttributesDoNotDecide | gui_verification/accessibility.py:156-170 | changing the required attribute list does not change whether the check raises or whether it passes |
| Accessibility.DecorativeImageFails | gui_verification/accessibility.py:142-148 | an `img` with blank `alt` and no other name passes its alt check as decorative, fails the name check, and so fails (alt check at lines 210-215) |
| Accessibility.HeadingLikeTagsRaise | gui_verification/accessibility.py:192-193 | `header`, `hr`, `html`, `head` and `h` make the check raise |
| Accessibility.HeadingLevels | gui_verification/accessibility.py:192-198 | `h1`…`h6` record one passing heading check with their level |
| Accessibility.AriaVerify | gui_verification/accessibility.py:69-103 | one entry per element in order, a raising element becoming a failed error entry; PASS exactly when every entry passed, else FAIL; the `ARIA checks: k/n passed` message |
| Accessibility.ScaledNumber | gui_verification/accessibility.py:447-455 | `float(v) * factor` succeeds exactly when v is a decimal literal, and is then non-negative |
| Accessibility.FontSizePoints | gui_verification/accessibility.py:440-457 | the size is non-negative, and 16 when there is no px/pt/em suffix (including the empty string) |
| Accessibility.FontSizeUnits | gui_verification/accessibility.py:446-455 | n px is 0.75·n pt, n pt is n, n em is 12·n |
| Accessibility.RemSizeRaises | gui_verification/accessibility.py:454-455 | `1.5rem` takes the `em` branch and raises |
| Accessibility.LargeTextInPixels | gui_verification/accessibility.py:377 | in whole pixels, text is large exactly when it is at least 24px, or at least 19px and bold |
| Accessibility.StyleContrast | gui_verification/accessibility.py:353-414 | a ratio check passes exactly when the ratio reaches the required one, which is the large-text ratio for large text and the minimum otherwise; an unparsable colour gives one failed colour check |
| Accessibility.ElementContrast | gui_verification/accessibility.py:340-416 | raises exactly when the lookup raises; otherwise exactly one check for the selector |
| Accessibility.ContrastDecision | gui_verification/accessibility.py:370-399 | with both colours and the size readable, the check records the ratio, the required ratio and the large-text flag, and passes exactly when the ratio reaches the required ratio |
| Accessibility.DefaultsAgreeWithColorUtils | gui_verification/accessibility.py:377-381 | with the default thresholds the contrast check agrees with `ColorUtils.is_color_accessible` (default thresholds at lines 279-280) |
| Accessibility.BlackOnWhitePasses | gui_verification/accessibility.py:370-389 | black on white passes for any thresholds up to 21 |
| Accessibility.SameColorFails | gui_verification/accessibility.py:370-399 | text in its own background colour fails for any thresholds above 1 |
| Accessibility.TransparentBackgroundReadsAsBlack | gui_verification/accessibility.py:429-431 | black text on a transparent `rgba(0, 0, 0, 0)` background fails, because the alpha is ignored |
| Accessibility.ContrastVerify | gui_verification/accessibility.py:282-316 | one entry per element in order; PASS exactly when every entry passed, else FAIL; the `Contrast checks: k/n passed` message |
| Visual.WrappedSquaredError | gui_verification/visual.py:163 | the uint8 squared error of one sample is below 256 |
| Visual.ExactSquaredError | gui_verification/visual.py:163 | the exact squared error is at most 65025 for bytes and is 0 exactly when the samples are equal |
| Visual.CountDifferent | gui_verification/visual.py:170-171 | the number of samples whose difference exceeds the tolerance is at most the number of samples |
| Visual.Accumulate | gui_verification/visual.py:159-171 | one pass yields the sum of the per-sample errors and the count of differing samples |
| Visual.CompareWith | gui_verification/visual.py:143-181 | total is width·height·3 and positive; MSE is the mean of the errors; similarity is `1 - mse/255²`; the differing count is at most the total; the percentage is `100·different/total` |
| Visual.CompareImages | gui_verification/visual.py:143-181 | as written (uint8): MSE is at most 255, so the similarity is at least `1 - 1/255`, together with the counts above |
| Visual.CompareImagesExact | gui_verification/visual.py:143-181 | in exact arithmetic the similarity lies in [0, 1] and is 1 exactly when the grids are equal |
| Visual.WrappedMseAtMost255 | gui_verification/visual.py:163-167 | the uint8 MSE is at most 255 and the similarity is at least `1 - 1/255` |
| Visual.ExactMseBounds | gui_verification/visual.py:163-167 | the exact similarity lies in [0, 1] and is 1 exactly when the grids are equal |
| Visual.IdenticalImages | gui_verification/visual.py:156-178 | identical grids give MSE 0, similarity 1 and no differing samples |
| Visual.BlackWhiteLooksSimilar | gui_verification/visual.py:159-167 | solid black against solid white gives MSE 1, so it passes the default threshold 0.95 |
| Visual.BlackWhiteExactDiffers | gui_verification/visual.py:159-167 | in exact arithmetic the same pair has MSE 65025 and similarity 0 |
| Visual.ScreenshotVerify | gui_verification/visual.py:66-120 | with neither input FAIL "No reference image or current screenshot provided"; with a screenshot and no reference FAIL "No reference image provided"; an unreadable image FAIL with its error; otherwise PASS exactly when the similarity reaches the threshold; the details hold the threshold, the similarity of the MSE, the wrapped MSE, the total `width·height·3`, the count of samples differing by more than the tolerance, and the percentage `100·different/total` |
| Visual.Detect | gui_verification/visual.py:230-266 | the status is `found` exactly when the element was found, its visibility matches any expectation, and its text matches any non-empty expected text |
| Visual.CheckElement | gui_verification/visual.py:230-266 | the imperative status overwriting equals Detect |
| Visual.TextMismatchWins | gui_verification/visual.py:249-257 | when both expectations fail, the status is `text_mismatch` |
| Visual.DetectorVerify | gui_verification/visual.py:191-228 | WARNING with no specs; otherwise one entry per spec and PASS exactly when every element was found, with the `Element detection: k/n elements found` message |
| Layout.MaxMin | gui_verification/layout.py:501 | `max` and `min` bound every value and are attained |
| Layout.AxisCheck | gui_verification/layout.py:493-514 | one alignment check of the given kind, with no row or column tag |
| Layout.AxisCheckRule | gui_verification/layout.py:493-514 | the rule passes exactly when the values are all equal or `max - min` is within the tolerance; the spread is reported exactly when they are not all equal, and it is `max - min` |
| Layout.HorizontalChecks | gui_verification/layout.py:490-540 | exactly two checks, top then centre |
| Layout.Tops | gui_verification/layout.py:493 | the `y` of every box, in order |
| Layout.MiddlesY | gui_verification/layout.py:517 | `y + height // 2` of every box, in order |
| Layout.Lefts | gui_verification/layout.py:545 | the `x` of every box, in order |
| Layout.MiddlesX | gui_verification/layout.py:569 | `x + width // 2` of every box, in order |
| Layout.VerticalChecks | gui_verification/layout.py:542-592 | exactly two checks, left then centre |
| Layout.HorizontalRules | gui_verification/layout.py:493-540 | top alignment is the rule on `y`; centre alignment is the rule on `y + height // 2` |
| Layout.VerticalRules | gui_verification/layout.py:545-592 | left alignment is the rule on `x`; centre alignment is the rule on `x + width // 2` |
| Layout.TopPassesCentreFails | gui_verification/layout.py:493-540 | the two rules are independent: equal tops with different heights pass top and fail centre |
| Layout.Rows | gui_verification/layout.py:600-603 | every row holds between 1 and `columns` boxes |
| Layout.RowsPartition | gui_verification/layout.py:600-603 | the rows concatenated are the boxes, and every row but the last is full |
| Layout.ColumnIsStride | gui_verification/layout.py:616-617 | column j holds boxes j, j + columns, j + 2·columns, … |
| Layout.Columns | gui_verification/layout.py:616-617 | exactly `columns` columns, column j gathering the j-th box of every row that has one |
| Layout.Tag | gui_verification/layout.py:606-624 | the same checks, each tagged with the group's row or column index |
| Layout.GroupRows | gui_verification/layout.py:600-603 | the grouping loop yields Rows |
| Layout.CheckGroups | gui_verification/layout.py:606-624 | the row (or column) loop appends the tagged checks of every group of two or more boxes, and passes exactly when all of them pass |
| Layout.GridAlignment | gui_verification/layout.py:594-626 | the grid check's checks are the row checks then the column checks, and it passes exactly when all pass |
| Layout.GroupChecksTagged | gui_verification/layout.py:606-624 | every check carries the index of its group on its own axis and no tag on the other |
| Layout.GroupCheckCount | gui_verification/layout.py:607-613 | each group of two or more boxes adds exactly two checks |
| Layout.GridChecksTagged | gui_verification/layout.py:594-626 | grid checks come row-tagged first, then column-tagged with a column below `columns` |
| Layout.GridOfThree | gui_verification/layout.py:594-626 | three boxes in two columns give the two checks of row 0 and the two of column 0 |
| Layout.ThreeInTwoColumns | gui_verification/layout.py:600-617 | three boxes in two columns form rows [a, b], [c] and columns [a, c], [b] |
| Layout.ThreeInTwoColumnsChecks | gui_verification/layout.py:606-624 | only row 0 and column 0 are checked, because row 1 and column 1 hold a single box |
| Layout.CheckAlignment | gui_verification/layout.py:451-488 | fewer than two elements gives one failed insufficient-elements check; a failed lookup raises; an unknown type passes with no checks; horizontal and vertical give their two checks; grid raises exactly when the grid checks raise (zero columns), and otherwise gives the grid checks; it passes exactly when all its checks pass |
| Layout.OffsetCheck | gui_verification/layout.py:119-167 | fails exactly when `abs(actual - expected)` exceeds the tolerance; the difference is `actual - expected` (the same rule for sizes at lines 299-348) |
| Layout.MinimumCheck | gui_verification/layout.py:351-389 | fails exactly when the actual value is below the minimum |
| Layout.RightOfAsymmetric | gui_verification/layout.py:192-205 | of two boxes with non-negative widths at most one is right of the other, and a touching edge is not right of |
| Layout.BelowAsymmetric | gui_verification/layout.py:208-221 | the same for `below` |
| Layout.RelativeChecks | gui_verification/layout.py:178-223 | the right-of check when asked, then the below check when asked, each failing exactly when the element starts at or before the other's far edge |
| Layout.CheckPosition | gui_verification/layout.py:103-176 | a failed lookup of either element raises; otherwise the kinds are x, y, right-of, below, each only when asked for, in that order; the x and y checks compare the element's x and y with the expected values under the check's tolerance (or the default), and the relative checks relate the element to the other box; it passes exactly when each asked-for coordinate is within tolerance and each asked-for relation holds |
| Layout.CheckSize | gui_verification/layout.py:283-391 | a failed lookup raises; otherwise the kinds are width, height, min-width, min-height, each only when asked for, in that order; the width and height checks compare with the expected values under the tolerance, and the minimum checks with the minimums; it passes exactly when each asked-for dimension is within tolerance and at least each asked-for minimum |
| Layout.PositionVerify | gui_verification/layout.py:64-101 | with no checks, `PositionChecker` with WARNING and `No position checks specified`; otherwise `PositionChecker` with one entry per check, in order, each the selector with its `_check_position` record or its error; PASS exactly when every check was evaluated and passed, else FAIL; the message `Position checks: k/n passed` with k the passing entries |
| Layout.SizeVerify | gui_verification/layout.py:244-281 | with no checks, `SizeChecker` with WARNING and `No size checks specified`; otherwise `SizeChecker` with one entry per check, in order, each the selector with its `_check_size` record or its error; PASS exactly when every check was evaluated and passed, else FAIL; the message `Size checks: k/n passed` with k the passing entries |
| Layout.AlignmentVerify | gui_verification/layout.py:412-449 | with no checks, `AlignmentChecker` with WARNING and `No alignment checks specified`; otherwise `AlignmentChecker` with one entry per check, in order, each the element list with its `_check_alignment` record or its error; PASS exactly when every check was evaluated and passed, else FAIL; the message `Alignment checks: k/n passed` with k the passing entries |
| Layout.SingleElementFails | gui_verification/layout.py:463-470 | an alignment check of fewer than two elements fails whatever its type |
| Responsive.OverlapsSymmetric | gui_verification/responsive.py:324-329 | overlap is symmetric |
| Responsive.TouchingDoNotOverlap | gui_verification/responsive.py:324-329 | boxes that share only an edge do not overlap |
| Responsive.OverlapsIffIntersection | gui_verification/responsive.py:324-329 | for boxes of positive size, overlap means the open intersection is non-empty |
| Responsive.ZeroWidthOverlap | gui_verification/responsive.py:324-329 | a zero-width box overlaps a box exactly when its x lies strictly inside the other's span and the heights overlap; two zero-width boxes never overlap |
| Responsive.ZeroWidthInsideOverlaps | gui_verification/responsive.py:324-329 | a zero-width box inside a 10×10 box does overlap it |
| Responsive.SelfOverlap | gui_verification/responsive.py:324-329 | a box overlaps itself exactly when its width and height are positive |
| Responsive.Located | gui_verification/responsive.py:288-299 | the located boxes are selectors whose lookup succeeded, with their boxes |
| Responsive.LocatedAll | gui_verification/responsive.py:288-299 | when every lookup succeeds, every selector is located, in order |
| Responsive.LocatedComplete | gui_verification/responsive.py:288-299 | every selector whose lookup succeeds is located, with its box |
| Responsive.LocatedConcat | gui_verification/responsive.py:288-299 | the located boxes of a concatenation are those of each part, in order, so the selectors' order is kept |
| Responsive.LocatedOne | gui_verification/responsive.py:290-297 | one selector is located exactly when its lookup succeeds |
| Responsive.ScanPairsMembers | gui_verification/responsive.py:301-308 | the scan reports exactly the index pairs i < j whose boxes overlap |
| Responsive.ScanPairs | gui_verification/responsive.py:302-308 | every reported pair (i, j) has i < j and both index located boxes |
| Responsive.NoPairsIffDisjoint | gui_verification/responsive.py:301-322 | the scan finds nothing exactly when no two located boxes overlap |
| Responsive.ScanPairsOrdered | gui_verification/responsive.py:302-303 | each unordered pair is reported at most once, in index order |
| Responsive.LocateAll | gui_verification/responsive.py:288-299 | the locating loop skips failed lookups and yields Located |
| Responsive.ScanRow | gui_verification/responsive.py:303-308 | the inner loop lists, by selector, the later boxes that overlap box i |
| Responsive.Named | gui_verification/responsive.py:305-308 | one selector pair per index pair, in the same order |
| Responsive.CheckElementOverlaps | gui_verification/responsive.py:286-322 | the overlaps are the scan's pairs named by selector; the check passes exactly when no two located boxes overlap |
| Responsive.SizeAppropriatenessCheck | gui_verification/responsive.py:238-264 | raises (division by zero) exactly when the mobile rule does not apply and the viewport width is 0 |
| Responsive.SizeAppropriatenessRule | gui_verification/responsive.py:243-264 | on a viewport of positive width: a mobile width below 44 fails first; otherwise it fails exactly when `width / viewport_width · 100 > 90` |
| Responsive.HorizontalScrollCheck | gui_verification/responsive.py:266-284 | passes exactly when the page width is at most the viewport width |
| Responsive.CheckElementResponsive | gui_verification/responsive.py:175-236 | a failed lookup gives one failed error check; otherwise viewport fit (fails exactly when `x + width > viewport_width`), visibility and size appropriateness; it passes exactly when all pass |
| Responsive.ZeroWidthViewportFails | gui_verification/responsive.py:238-264 | on a zero-width viewport the division error becomes a failed error check |
| Responsive.WiderViewportKeepsPassing | gui_verification/responsive.py:193-273 | widening a viewport never turns a passing element or scroll check into a failing one |
| Responsive.DefaultBreakpointsPartition | gui_verification/responsive.py:348-352 | the default breakpoints cover 0..9999 with no gap or overlap |
| Responsive.TestWidth | gui_verification/responsive.py:418 | the floored midpoint lies in [min, max] when min ≤ max |
| Responsive.DefaultTestWidths | gui_verification/responsive.py:348-418 | the default test widths are 383, 895 and 5511 |
| Responsive.CheckVisibility | gui_verification/responsive.py:451-486 | a check passes exactly when the expectation equals "found and displayed", so a missing element passes exactly when it was expected invisible |
| Responsive.TestBreakpointVisibility | gui_verification/responsive.py:438-488 | one check per element (given, or nav, .mobile-menu and .desktop-menu by default), in order, at the test width; it passes exactly when all pass |
| Responsive.BreakpointOutcome | gui_verification/responsive.py:403-436 | the record names the test and breakpoint, uses the midpoint width, and passes exactly when all its checks pass |
| Responsive.RunBreakpointTest | gui_verification/responsive.py:403-436 | the imperative test equals BreakpointOutcome |
| Responsive.DefaultBreakpointTests | gui_verification/responsive.py:390-401 | one visibility test per breakpoint, in order, named `breakpoint_<name>` |
| Responsive.BreakpointVerify | gui_verification/responsive.py:354-388 | the given tests, or the default ones when none are given, run in order; PASS exactly when every test passed, else FAIL; the `Breakpoint tests: k/n passed` message |
| Responsive.MobilePagePassesAtMobile | gui_verification/responsive.py:445-449 | a page showing nav and .mobile-menu but not .desktop-menu passes the default mobile test |
| Responsive.MobilePageFailsAtDesktop | gui_verification/responsive.py:445-449 | the same page fails the default desktop test |
| Performance.PageLoad | gui_verification/performance.py:100-196 | the first check is the load-time check, passing exactly when the load time is within the limit |
| Performance.PageLoadVerdict | gui_verification/performance.py:122-169 | page load passes exactly when the page loaded within the load limit and, if metrics were read, the DOM-ready time (0 when missing) is within its limit |
| Performance.UnreadableMetricsStillPass | gui_verification/performance.py:181-186 | unreadable metrics add a failing check, but the test still passes |
| Performance.ApiLoadCheck | gui_verification/performance.py:171-179 | the performance-API check appears exactly when metrics were read and `loadComplete > 0`, and it always passes |
| Performance.Successes | gui_verification/performance.py:217-223 | the successful navigation times, in order |
| Performance.NavigationChecks | gui_verification/performance.py:217-240 | one check per URL, passing exactly when its navigation succeeded |
| Performance.NavigationCheck | gui_verification/performance.py:225-240 | a navigation check passes exactly when the navigation succeeded |
| Performance.Navigation | gui_verification/performance.py:198-252 | no URLs gives one passing check; the test's verdict is the conjunction of its checks |
| Performance.NavigationPerformance | gui_verification/performance.py:198-252 | the accumulating loop equals Navigation |
| Performance.AverageWithin | gui_verification/performance.py:242-249 | the recorded average lies between the fastest and slowest successful navigation |
| Performance.SuccessesWithin | gui_verification/performance.py:222-242 | when every successful navigation time lies within bounds, so does each time in the successes list |
| Performance.SumBounds | gui_verification/performance.py:244 | the sum of n times within [lo, hi] lies within [n·lo, n·hi] |
| Performance.AverageRecordedIff | gui_verification/performance.py:242-250 | the average check is recorded exactly when some navigation succeeded |
| Performance.SuccessesEmptyIff | gui_verification/performance.py:222-242 | there are no successful times exactly when every navigation failed |
| Performance.Filter | gui_verification/performance.py:288-289 | the filtered list keeps exactly the items satisfying the condition |
| Performance.FirstFive | gui_verification/performance.py:296-311 | at most five items, a prefix, and all items when there are at most five |
| Performance.ResourceLoading | gui_verification/performance.py:254-345 | the test's verdict is the conjunction of its checks |
| Performance.ResourceVerdict | gui_verification/performance.py:279-335 | passes exactly when the entries were read and either there were none, or none is slow (> 1000 ms), none is large (> 1 000 000 bytes) and there are at most 100 |
| Performance.SlowResourcesShown | gui_verification/performance.py:291-297 | the slow-resources check shows the first five slow resources in their original order, all of them when there are at most five |
| Performance.DurationMs | gui_verification/performance.py:463 | `float(v.replace('s', '')) * 1000` succeeds exactly when the remainder is a decimal literal, and is then non-negative (the same parse for transitions at line 523) |
| Performance.CssAnimation | gui_verification/performance.py:448-508 | the duration is parsed first (raising on bad input); `none` gives one passing check; otherwise a duration check within the maximum and a timing-function check among the five standard functions |
| Performance.CssTransition | gui_verification/performance.py:510-552 | the duration is parsed first; `none` gives one passing check; otherwise one duration check within the maximum |
| Performance.Failed | gui_verification/performance.py:438-444 | an exception leaves one failing check and a failing test |
| Performance.AnimationTest | gui_verification/performance.py:417-446 | a missing name or selector raises; otherwise a record for the test whose verdict is the conjunction of its checks |
| Performance.AnimationVerdict | gui_verification/performance.py:462-506 | an animation passes exactly when its name is `none`, or its duration is within the maximum and its timing function is standard |
| Performance.UnreadableDurationFails | gui_verification/performance.py:438-463 | a duration holding a comma (a list such as `1s, 2s`), which `float()` rejects, makes the animation test fail with an error check, even for `none` |
| Performance.LoadTimeVerify | gui_verification/performance.py:62-98 | the page-load test, then navigation and resources when asked; PASS exactly when every test passed, else FAIL; the `Load time tests: k/n passed` message |
| Performance.AnimationVerify | gui_verification/performance.py:356-390 | one entry per test in order; PASS exactly when every entry passed, else FAIL; the `Animation tests: k/n passed` message |
| Interaction.AllPassConcat | gui_verification/interaction.py:172-283 | the checks of two stretches all pass exactly when each stretch's checks all pass |
| Interaction.ClassChecks | gui_verification/interaction.py:196-213 | one check per expected class, passing exactly when the class occurs as a substring of the class attribute |
| Interaction.ClassPrefixMatches | gui_verification/interaction.py:201 | `btn` matches `btn-primary` |
| Interaction.AppendClassChecks | gui_verification/interaction.py:196-213 | the loop appends exactly the class checks, and passed only goes from true to false |
| Interaction.NewElementChecks | gui_verification/interaction.py:255-283 | one check per selector, passing exactly when the element was found and displayed |
| Interaction.ShouldHideCheck | gui_verification/interaction.py:179-193 | the hide expectation adds a check only when it is true, and that check fails exactly when the element is still visible |
| Interaction.TextCheckIsSubstring | gui_verification/interaction.py:216-232 | the text check passes exactly when the expected text occurs in the text after the click |
| Interaction.UrlChangeCheck | gui_verification/interaction.py:235-253 | the URL expectation adds a check only when it is true, and it passes exactly when the URL changed |
| Interaction.AppendNewElementChecks | gui_verification/interaction.py:255-283 | the loop appends exactly the new-element checks |
| Interaction.CheckClickResults | gui_verification/interaction.py:172-283 | appends exactly the visibility, class, text, URL and new-element checks in that order; passed becomes false exactly when one of them failed |
| Interaction.ClickTestResult | gui_verification/interaction.py:108-146 | a missing name or selector raises; a failed click records one failed execution check; a record passes exactly when all its checks pass |
| Interaction.ClickVerdict | gui_verification/interaction.py:172-283 | a click test passes exactly when every expectation it states is met |
| Interaction.ClassChecksPass | gui_verification/interaction.py:196-213 | the class checks all pass exactly when every expected class is contained in the attribute |
| Interaction.NewElementChecksPass | gui_verification/interaction.py:255-283 | the new-element checks all pass exactly when every expected element was found and displayed |
| Interaction.RunClickTest | gui_verification/interaction.py:108-146 | the imperative test equals ClickTestResult |
| Interaction.ClickVerify | gui_verification/interaction.py:69-106 | WARNING "No click tests specified" without tests; otherwise one entry per test, PASS exactly when every test passed, with the `Click tests: k/n passed` message |
| Interaction.HoverNewElementChecks | gui_verification/interaction.py:752-777 | as written, every expected new element gives a failed check |
| Interaction.TooltipCheck | gui_verification/interaction.py:713-729 | the tooltip check passes exactly when the state holds a true `tooltip_<selector>` entry |
| Interaction.HoverNewElementsAlwaysFail | gui_verification/interaction.py:752-777 | as written, a hover test expecting any new element fails, whatever the page shows |
| Interaction.HoverIntendedNewElements | gui_verification/interaction.py:713-777 | as intended, the hover checks pass exactly when the tooltip and class checks pass and every expected element is found and displayed |
| Interaction.HoverIntendedDiffers | gui_verification/interaction.py:752-777 | a hover test expecting `.menu`, which is displayed, passes as intended and fails as written |
| Interaction.AppendHoverNewElementChecks | gui_verification/interaction.py:752-777 | the loop as written appends one failed check per selector |
| Interaction.CheckHoverResults | gui_verification/interaction.py:707-779 | appends exactly the tooltip, class and new-element checks; passed becomes false exactly when one failed |
| Interaction.HoverTestResult | gui_verification/interaction.py:638-677 | a missing name or selector raises; a failed hover records one failed execution check; a record passes exactly when all its checks pass |
| Interaction.RunHoverTest | gui_verification/interaction.py:638-677 | the imperative test equals HoverTestResult |
| Interaction.HoverVerify | gui_verification/interaction.py:599-636 | WARNING "No hover tests specified" without tests; otherwise one entry per test, PASS exactly when every test passed, with the `Hover tests: k/n passed` message |
| Text.StripEmptyIffBlank | gui_verification/accessibility.py:229 | `s.strip()` is empty exactly when s is all whitespace (`str.isspace` on ASCII, U+001C..U+001F included) |
| Text.SeparatorStripsAway | gui_verification/accessibility.py:229-230 | `"\x1c".strip()` is empty and `" \x1fa".strip()` is `a`, as Python's `strip` removes the separators U+001C..U+001F |
| Text.StripIsTrimmed | gui_verification/accessibility.py:230 | a stripped string neither starts nor ends with whitespace |
| Text.ContainsIff | gui_verification/interaction.py:201 | `a in b` holds exactly when a occurs at some position of b |
| Text.RemoveChar | gui_verification/performance.py:463 | `s.replace(c, '')` is no longer than s and holds no c |
| Text.RemoveCharKeeps | gui_verification/performance.py:463 | `s.replace(c, '')` keeps every other character of s |
| Text.ParseDecimal | gui_verification/accessibility.py:447 | `float()` on a decimal literal is non-negative |
| Text.ParseDecimalRejects | gui_verification/performance.py:463 | a string with a character other than a digit or `.` is not a decimal literal |
| Text.ParseDecimalOfNat | gui_verification/accessibility.py:447 | a string of digits reads back as its number |
| Text.NatToString | gui_verification/layout.py:94 | `str(n)` is a non-empty digit string whose value is n |

## Findings

| source | as written | input that shows it | evidently intended | confidence | as-written member | corrected member |
|---|---|---|---|---|---|---|
| gui_verification/visual.py:159-167 | `(img1_array - img2_array) ** 2` on uint8 arrays wraps modulo 256, so every squared error is below 256 and the similarity never drops below `1 - 1/255` | a solid black grid against a solid white grid: MSE 1, similarity ≈ 0.99998, PASS at threshold 0.95 | squared errors in exact arithmetic: MSE 65025, similarity 0, FAIL | not executed | Visual.BlackWhiteLooksSimilar | Visual.BlackWhiteExactDiffers |
| gui_verification/interaction.py:752-777 | `_check_hover_results` uses `driver`, which is not defined there; the bare `except` catches the NameError, so every expected new element is "not found" | a hover test with `expected_new_elements: ['.menu']` on a page where `.menu` is displayed after the hover: FAIL | look the element up on the page and pass when it is displayed: PASS | not executed | Interaction.HoverNewElementsAlwaysFail | Interaction.HoverIntendedDiffers |

The two findings are modelled in both forms. For the screenshot comparison:

- `Visual.CompareImages` is the computation as written;
- `Visual.CompareImagesExact` is the exact version.

For the hover checks:

- `Interaction.HoverChecks` is the logic as written;
- `Interaction.HoverChecksIntended` is the intended version.

`Visual.ScreenshotVerify` and `Interaction.HoverVerify` call the as-written
versions, because those are what the library runs.

A note on `_elements_overlap` (gui_verification/responsive.py:324-329).
Its comparisons are strict, so a zero-width box strictly inside another box
does overlap it (`Responsive.ZeroWidthInsideOverlaps`). Two zero-width boxes
never overlap each other (`Responsive.ZeroWidthOverlap`). So "a zero-width
box overlaps nothing" does not hold. That is a property of the formula, not
an evident mistake, so it is not listed as a finding.

## Left out

- All browser I/O is outside the model and becomes inputs: finding elements, `execute_script`, window sizing, clicks, hovers, screenshots, `time.sleep`. Observed boxes, styles, states, times and lookup outcomes are parameters.
- Element discovery when no elements are given is not modelled: `_find_interactive_elements`, `_find_text_elements`, `_find_responsive_elements`, `_find_animation_elements`. The verify methods take the list to check.
- `KeyboardNavigationChecker`, `FormValidator`, `BrowserManager`, `ElementFinder` and `WaitUtils` are browser drivers with no decision logic of their own.
- `ViewportTester.verify` and `_test_viewport` (gui_verification/responsive.py:65-173) only chain the modelled element, scroll and overlap checks over resized windows. The chaining itself is not modelled.
- Image decoding, base64, PIL resizing and mode conversion are not modelled. The comparison takes two equal-sized RGB grids of samples.
- Visual.CompareImages: the similarity is not placed in the details message string. Formatting with `:.2f` is not modelled.
- Wall-clock time is not modelled. Durations, load times and navigation times are inputs, and timestamps are left out.
- HTML, JSON and console report rendering are not modelled, nor config file load and save (gui_verification/config.py:70-172, 193-253, 266-422).
- Check-level message strings are not modelled. Check records keep their kind, their verdict and the numbers they report. Verdict messages with counts are modelled.
- Colors.Luminance: the gamma curve `** 2.4` is a parameter, because Dafny has no real power. It is only required to be positive and at most 1 above the linear threshold up to 1, and 1 at 1. The 21:1 bound and black/white results hold for every such curve.
- Colors.HexToRgb: Python's `int(x, 16)` also accepts a sign or surrounding whitespace in a two-character field (`'+f'`, `'-f'`, `' f'`), and non-ASCII Unicode decimal digits. Here only two ASCII hexadecimal digits are accepted.
- Colors.ParseCssColor: `\d` is read as an ASCII digit and `\s` as the ASCII characters `str.isspace` accepts. Non-ASCII digits and spaces are not modelled (U+0085, U+00A0, U+2000..U+200A and the like).
- Python's float64 arithmetic is modelled as exact `real` arithmetic, so rounding is not modelled, including at threshold boundaries. This concerns Colors.Luminance and Colors.ContrastRatio (21 is exact only in reals), Visual.CompareWith (MSE, similarity, percentage), Config.GenerateSummary (success rate), Performance.Navigation (average), Accessibility.ScaledNumber and Performance.DurationMs. For example, the duration `0.50000000000000001s` against a maximum of 500: Python's `float()` rounds it to 0.5 and the check passes, but the model reads it exactly and fails.
- Text.ParseDecimal: `float()` is modelled only on the forms `d+`, `d+.d*` and `.d+`. Signs, exponents, `inf`/`nan` and surrounding whitespace are not modelled, and such input counts as a ValueError.
- Accessibility.FontSizePoints: follows the ParseDecimal restriction. A negative size cannot arise.
- Colors.Rgb: channels are natural numbers. `parse_css_color` cannot yield a negative channel; `hex_to_rgb` can, but only through a sign in a field (`'#-f0000'` gives `(-15, 0, 0)`), which is not modelled. So `rgb_to_hex` on negative input is not modelled either.
- Config.FromDict: a value of the wrong kind for its field raises. Python's dataclass would store it as given, but the typed record cannot hold it.
- Interaction.ClickTestResult: the class attribute is taken to be a string. A missing `class` attribute (`None`, which makes the `in` test raise) is not modelled.
- Interaction.HoverTestResult: the state captured before the hover is unused by the source and is not modelled.
- Responsive.RunBreakpointTest: the exception path of `_run_breakpoint_test` (setting the window size raising) is not modelled, because the page is an input. The `layout_check` placeholder always adds one passing check.
- `LoadTimeChecker.max_first_paint_time` and `AnimationChecker.min_fps` are read from the configuration but never used by the source, so they appear only in `Config`.
- Performance.PageLoad: the `url` field of the page-load record is not kept.
- A KeyError on a missing spec key is modelled as an error entry carrying the key's name only in Performance.AnimationTest, Interaction.ClickTestResult, Interaction.HoverTestResult and Visual.Detect, whose name and selector fields are optional. The exact `repr` quoting of other exceptions' messages is not modelled.
- Missing spec keys elsewhere are not modelled: the selector of a position, size or relative check and the element list of an alignment check (gui_verification/layout.py:105, 180, 285, 453, 475), the element selector of the accessibility checkers (gui_verification/accessibility.py:129, 342), and the element selector and the breakpoint test's name, breakpoint and type (gui_verification/responsive.py:178, 405-407, 452) are plain strings in the model and always present. So the `'unknown'` key of the layout checkers' error entries (gui_verification/layout.py:87, 267) never arises: an error entry is keyed by the check's own selector.
