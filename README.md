# ProceduralPollock shader generator, in Dafny

This project models `GenerateShaderCode` (src/Shader.cpp), the part of
ProceduralPollock that turns a seed into the source text of an HLSL pixel
shader. The generator works on one `std::string`, the `main` function, in
five steps:

1. It draws `maxDepth`, the sum of two draws from [3, 7].
2. It replaces the `@MASK@` token of a fixed skeleton by a mask template.
3. It runs `maxDepth + 1` rounds. Each round marks every pending `@` as `$`.
   It then replaces each `$`, first one first, by a function template (which
   brings new `@`) or by a value template. The choice is a quadratic coin:
   a draw from [1, maxDepth²] against `i²`.
4. It replaces each `#` by `std::to_string` of a random float followed by `f`.
5. It returns the fixed prelude of HLSL helper functions followed by `main`.

The modules follow that structure:

- `Text` holds the `std::string` operations the generator uses: `find` of a
  character or of a token, `replace`, and a count of occurrences. It also
  defines `Fill`, which replaces the occurrences of a character left to right
  by a list of strings. `Fill` is the specification of both find-and-replace
  loops.
- `Catalog` holds the value, function and mask catalogs, copied from the
  source, and the `main` skeleton. It proves the facts the generator relies
  on: which templates hold which markers, and where `@MASK@` is found.
- `Prelude` holds the helper-function text, kept verbatim in small groups of
  lines, and proves that it holds no marker.
- `Prng` holds the random generator, as an abstract stream of raw draws.
- `FloatText` models `std::to_string` of a float (`%f`: six decimals).
- `Shader` holds the generator. `ExpressionBuffer` is a class whose `text`
  field is the `main` string, and its methods change it in place as the
  source does.

`GenerateShaderCode` is proved to return the prelude, unchanged, followed by
a `main` that is the skeleton with a drawn mask, grown round by round from
catalog templates and with its constants printed (`Shader.GeneratedMain`),
and no marker is left anywhere in the shader. The depth is the sum of the
first two draws of the seed's generator and the mask is the catalog entry its
third draw selects.

## Model

| member | source | states |
|---|---|---|
| Shader.DrawMaxDepth | src/Shader.cpp:23 | the depth is the sum of two draws from [3, 7], so it lies in [6, 14]; two draws are consumed |
| Shader.ChooseKind | src/Shader.cpp:394-399 | for a draw from [1, maxDepth²], round 0 always picks a function template and round `maxDepth` always a value template |
| Shader.ChooseKindMonotone | src/Shader.cpp:396-397 | a draw that picks a value in round `i` picks a value in every later round |
| Shader.Marked | src/Shader.cpp:384-388 | the marking pass keeps the length, leaves no `@`, and changes a character only from `@` to `$` |
| Shader.MarkedCounts | src/Shader.cpp:384-388 | after marking no `@` is left, the `$` count is the old `@` count plus the old `$` count, and every other character count is unchanged |
| Shader.MarkedFramed | src/Shader.cpp:384-388 | marking leaves text without `@` as it is, so only the expression between the skeleton's frame changes |
| Shader.ExpressionBuffer.constructor | src/Shader.cpp:269-290 | the buffer starts as the `main` skeleton |
| Shader.ExpressionBuffer.SubstituteMask | src/Shader.cpp:373-377 | the one `@MASK@` becomes a catalog mask and the rest of the skeleton stays; the body then holds the three channel `@` plus the mask's, at most five, and no `$`; the mask is the catalog entry the next draw selects |
| Shader.MaskSubstitution | src/Shader.cpp:374-377 | replacing the token found by `find` gives the skeleton frame around channels, mask line and mask, with `3 +` the mask's `@` count |
| Shader.ExpressionBuffer.MarkPending | src/Shader.cpp:384-388 | the in-place loop leaves exactly the marked text |
| Shader.ExpressionBuffer.ResolvePending | src/Shader.cpp:390-403 | the `find`/`replace` loop ends (the `$` count drops each turn) with the old text filled left to right with the drawn templates and no `$` left; each pick is from a catalog, only functions in round 0 and only values in round `maxDepth` |
| Shader.FinalRound | src/Shader.cpp:379-404 | a last round whose templates hold no `@` and no `$` leaves an expression with neither |
| Shader.ExpressionBuffer.Grow | src/Shader.cpp:379-404 | the `maxDepth + 1` rounds leave the frame unchanged; the expression goes through one stage per round, each the previous one marked and then filled with that round's templates; every template is from a catalog, round 0 draws only functions and round `maxDepth` only values, and the result holds no `@` and no `$` |
| Shader.ExpressionBuffer.ResolveLiterals | src/Shader.cpp:406-412 | the loop ends with the old text's `#` filled left to right with the literals of the drawn floats, one per `#`, each float in (0, 1), and no `#` left |
| Shader.Literal | src/Shader.cpp:410 | a printed constant is `to_string` of the float followed by `f`, with the decimal point eight places from the end |
| Shader.LiteralIsMarkerFree | src/Shader.cpp:410 | a printed constant holds no marker and ends in `f` |
| Shader.LiteralsAreMarkerFree | src/Shader.cpp:410 | no printed constant brings a marker back |
| Shader.FinalText | src/Shader.cpp:406-412 | printing the constants into an expression without `@` and `$` leaves the frame around an expression with no marker at all |
| Shader.CompleteMain | src/Shader.cpp:379-412 | once the mask is in place, the expression is grown through `depth + 1` rounds, each marking and then filling with catalog templates (functions only first, values only last), and its `#` are filled with the literals of floats of (0, 1); the result satisfies `GeneratedMain` and holds no `@`, `$` or `#` |
| Shader.GenerateMain | src/Shader.cpp:19-412 | for a fresh generator, `main` is the skeleton with a catalog mask in place of the token, grown through `depth + 1` rounds, `depth` in [6, 14], each round marking and then filling with catalog templates (functions only first, values only last), and its `#` filled with the literals of floats of (0, 1); it holds no `@`, `$` or `#`; `depth` is the sum of the first two draws scaled to [3, 7] and the mask the one the third draw selects |
| Shader.LastStageIsMarkerFree | src/Shader.cpp:404-412 | after a last round of values without `@` and `$`, printing the constants into the framed expression leaves no marker |
| Shader.GeneratedMainIsMarkerFree | src/Shader.cpp:379-412 | every `main` made by those steps, whatever the draws, holds no marker |
| Shader.GenerateShaderCode | src/Shader.cpp:11-418 | the result is the prelude, unchanged, followed by a `main` as `GenerateMain` states, whose depth and mask are those drawn first from the generator of `seed`; the whole shader text holds no `@`, `$` or `#` |
| Prelude.FunctionDefinitionsAreMarkerFree | src/Shader.cpp:31-263 | the helper-function text holds no `@`, `$` or `#`, so the placeholders can only come from `main` |
| Catalog.CatalogsAreNotEmpty | src/Shader.cpp:294-371 | every catalog the generator draws from has entries, so each draw is in range |
| Catalog.ValuesAreTerminal | src/Shader.cpp:294-306 | no value template holds a `@` or a `$`, with or without the time channels |
| Catalog.FunctionsAreUnmarked | src/Shader.cpp:309-354 | no function template holds a `$`, so a replacement never brings a new one |
| Catalog.MasksAreUnmarked | src/Shader.cpp:357-370 | no mask holds a `$` |
| Catalog.MasksArity | src/Shader.cpp:357-370 | every mask holds at most two `@` |
| Catalog.OnlyAtCount | src/Shader.cpp:362-369 | a string whose `@` can only sit at two given places holds at most two |
| Catalog.SkeletonLayout | src/Shader.cpp:271-287 | outside the channels and the token the skeleton holds no marker, and the channels hold three `@` |
| Catalog.MaskTokenPosition | src/Shader.cpp:374-375 | `find("@MASK@")` on the skeleton lands just after the mask line |
| Catalog.FindMaskToken | src/Shader.cpp:375 | `find` skips marker-free text and the channels and lands on the token |
| Catalog.JoinMarkerFree | src/Shader.cpp:270-290 | text joined from marker-free lines is marker-free |
| Catalog.PreambleIsMarkerFree | src/Shader.cpp:271-284 | the skeleton before the channels holds no marker |
| Catalog.ClosingIsMarkerFree | src/Shader.cpp:285-290 | the skeleton after the mask token holds no marker |
| Catalog.MarkerFreeChars | src/Shader.cpp:384-411 | marker-free means no `@`, no `$` and no `#` |
| Text.Occurrences | src/Shader.cpp:391-411 | the count of a character is at most the length, and zero exactly when the character is absent |
| Text.OccurrencesAppend | src/Shader.cpp:391-411 | counts add up over a concatenation |
| Text.Find | src/Shader.cpp:391 | `find(c)` is `None` exactly when `c` is absent, else the first position holding `c` |
| Text.FindToken | src/Shader.cpp:375 | `find(token)` returns a position where the token starts, and no earlier one exists |
| Text.FindTokenSkip | src/Shader.cpp:375 | `find(token)` passes over a stretch in which the token does not start |
| Text.FindSkip | src/Shader.cpp:402 | `find(c)` passes over a stretch without `c` |
| Text.ReplaceSplices | src/Shader.cpp:377 | `replace(pos, count, t)` keeps the text before `pos`, puts `t` after it, and then what follows the replaced range, nothing when the range passes the end |
| Text.ReplaceOneOccurrences | src/Shader.cpp:401 | replacing one character trades it for the counts of the replacement |
| Text.ReplaceToken | src/Shader.cpp:377 | replacing a token keeps the text on both sides |
| Text.FillAppend | src/Shader.cpp:390-412 | filling a concatenation fills each part with its share of the picks |
| Text.FillAbsent | src/Shader.cpp:390-412 | filling brings no character that neither the text nor the picks hold |
| Text.FillFramed | src/Shader.cpp:390-412 | filling text framed by stretches without the character fills only the middle |
| Text.FillingStep | src/Shader.cpp:400-402 | one `replace` of the first occurrence keeps the loop state and lowers the count by one |
| Text.FillingEnd | src/Shader.cpp:392 | once `find` gives `npos` the text is the whole original, filled |
| Prng.Random.IntBetween | src/Shader.cpp:23 | a draw lies in the closed range and consumes one raw value |
| Prng.Random.Element | src/Shader.cpp:376 | an element is a member of the catalog, picked by one draw |
| Prng.Random.FloatO | src/Shader.cpp:410 | a float draw lies in the open interval (0, 1) |
| Prng.ScaleReaches | src/Shader.cpp:397 | every value of a range is reached by some raw draw |
| FloatText.DigitsValue | src/Shader.cpp:410 | the six padded decimals read back as the number they print |
| FloatText.DecimalValue | src/Shader.cpp:410 | the integer part reads back as the number it prints |
| FloatText.MillionthsIsNearest | src/Shader.cpp:410 | the printed value is a nearest whole number of millionths |
| FloatText.MillionthsTiesToEven | src/Shader.cpp:410 | a tie between two millionths goes to the even one |
| FloatText.ToString | src/Shader.cpp:410 | `to_string` starts with a minus sign exactly for a negative value and ends with a point and six decimals |
| FloatText.UnsignedReadsBack | src/Shader.cpp:410 | `to_string` prints digits, a point seven places from the end and six digits, and reads back as the rounded value |
| FloatText.UnitIntervalWidth | src/Shader.cpp:410 | a float in (0, 1) prints as eight characters |
| FloatText.ToStringCharacters | src/Shader.cpp:410 | `to_string` prints only a minus sign, digits and a point |

## Left out

- `Hash::UInt64` and the `Random` class come from RandFS.h, which is not part
  of this model. A generator is a stream of raw draws `stream(0), stream(1),
  ...`. `GenerateShaderCode` takes `streamOf`, the map from a seed to that
  stream, as a parameter.
- Prng.Random.FloatO: the 24-bit resolution of its values is an assumption,
  because the generator's algorithm is not visible. Only the open interval
  (0, 1) is used by the rest of the model.
- The 64-bit width of the seed is not modelled; a seed is a `nat`.
- The `std::cout` line (src/Shader.cpp:415) is output only.
- src/Graphics.cpp, src/Graphics.h and src/main.cpp are not part of this
  model. They hold window, Direct3D and shader-compilation calls and the
  render loop.
- The HLSL meaning of the helper functions and of the expression is not
  modelled; the prelude is carried along as text only.
- FloatText.ToString: a float is an exact real. Its binary representation and
  any rounding detail of a particular C library beyond round-half-to-even on
  the sixth decimal are not modelled.
- The statistical weighting given by duplicate catalog entries is kept, as
  the entries themselves are. No probability is stated.
- Shader.GenerateShaderCode: no bound on the size of the generated expression
  is stated. The depth and the mask are tied to the seed's draws; the
  templates of each round and the constants are stated to come from the
  catalogs and from (0, 1), not tied to particular later draws.
- The generator passes the catalogs to `SubstituteMask`, `ResolvePending` and
  `Grow` as parameters. The source reads the static arrays, and every call in
  the model passes those same arrays.
- Some function templates have no placeholder, such as
  `fDist(uv.x, uv.y, #, #)` (src/Shader.cpp:341). The model keeps them; such
  a template simply ends its branch of the expression.
- Turning `ANIMATE` off only removes `sinTime` and `cosTime` from the value
  catalog (src/Shader.cpp:300-303). The skeleton still declares both in every
  shader (src/Shader.cpp:281-282), and so does the model.
