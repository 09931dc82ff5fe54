# github-city, modelled in Dafny

github-city draws a user's GitHub contribution calendar as a small 3D city.
Two parts of it are modelled here.

- The city generation in `TerrainMesh` (src/app/components/GithubCity.tsx).
  - The linear list of days is folded into a 14 x 26 grid.
  - Each day becomes a box-shaped building. Its height comes from a logarithmic
    scale, its colour from a five-stop palette, and four of its six face materials
    carry a canvas texture of lit windows.
  - Two platform slabs are laid under the grid.
- The contribution post-processing and username validation in src/app/lib/github.ts.
  - The calendar's weeks are flattened into one list of days, and each date is
    rewritten to its day of the month.
  - In the default mode a trailing day without contributions is dropped, and the
    list is trimmed from the front to the requested window.
  - The username check is a regular expression.

## Layout

| file | module | what it holds |
|---|---|---|
| Wrappers.dfy | `Wrappers` | `Option` |
| Scales.dfy | `Scales` | `colorScale` as a palette lookup; `new THREE.Color("#rrggbb")`; `heightScale` over an abstract logarithm |
| Textures.dfy | `Textures` | the canvas (a class whose paint list grows with each `fillRect`) and `createWindowTexture` |
| Grid.dfy | `Grid` | the day-index fold; the cells that receive a building; counting |
| City.dfy | `City` | meshes, materials, the platform, and the nested row/column loops that fill the group |
| GitHub.dfy | `GitHub` | the regex as a matcher and as character rules; `Fetcher.fetchContributions`; `getGitHubContributions` |

The model makes these choices.

- `Math.log` is a parameter `ln`.
  - Heights rely only on `IsLog(ln)`: `ln(1) = 0`, and `ln(x) > 0` for `x > 1`.
  - Statements about the order of heights also assume `Increasing(ln)`.
- Positions, sizes and colour channels are exact reals.
- The GraphQL request's result is an input (`ApiResponse`).
- moment's date rewrite is an input function `dayOfMonth`.
- Whether a canvas yields a 2D context is an input `hasContext`.
- The imperative parts keep their form, each proved against a specification function.
  - The building loops are `BuildScene`, `AddRow`, `AddCell` and `MakeBuilding`.
  - `materials.forEach` is `TuneMaterials`, which works on an array in place.
  - The canvas drawing is `CreateWindowTexture`.
  - The nested `forEach`/`push` plus `pop`/`splice` is `Fetcher.FetchContributions` together with `CollectDays`.

Where the code and its own comments differ, the model follows the code.
- The materials are named by slot and by the direction of their face. The code's
  comments call slot 2 the top and slot 3 the bottom. But the boxes rise along z
  (depth = height, centre at height / 2), and three.js orders a box's faces +x, -x,
  +y, -y, +z, -z. So the roof is slot 4, which carries the window texture, and the
  palette-coloured slot 2 is the wall facing +y (`BuildingFaces`).

Other notes on the model:
- `heightScale` is a d3 linear scale without `clamp`, so a day with more than 30
  contributions gets a building taller than 1.5 (`HeightUnclamped`).

## Model

| member | source | states |
|---|---|---|
| `Scales.ColorStopClamp` | src/app/components/GithubCity.tsx:13-15 | counts 0..3 get their own palette stop; every count from 4 up gets "#2fb344" |
| `Scales.ColorStopSeparates` | src/app/components/GithubCity.tsx:127 | two counts share a colour exactly when they agree after clamping to 4 (both directions) |
| `Scales.ColorStopIsHex` | src/app/components/GithubCity.tsx:15 | the stop the model looks up is one of the five range strings, each of the form "#rrggbb" (d3 itself returns that stop's colour as `rgb(r, g, b)`) |
| `Scales.ParseHexColor` | src/app/components/GithubCity.tsx:128 | parsing the looked-up hex stop yields channels byte / 255 in [0, 1], the same channels `new THREE.Color` gets from d3's `rgb(r, g, b)` string |
| `Scales.SideColor` | src/app/components/GithubCity.tsx:131 | the side colour (base times 0.85) stays a unit colour and is nowhere lighter than the base |
| `Scales.Height` | src/app/components/GithubCity.tsx:116 | every building height is strictly positive |
| `Scales.HeightOfZero` | src/app/components/GithubCity.tsx:116 | a day without contributions gets height exactly 0.05 |
| `Scales.HeightMonotone` | src/app/components/GithubCity.tsx:17-20 | among positive counts the height strictly increases with the count |
| `Scales.HeightAtDomainEnd` | src/app/components/GithubCity.tsx:18-20 | 30 contributions map to exactly 1.5, the end of the scale's range |
| `Scales.HeightUnclamped` | src/app/components/GithubCity.tsx:18-20 | the scale is not clamped: more than 30 contributions give a height above 1.5 |
| `Textures.Canvas.constructor` | src/app/components/GithubCity.tsx:24 | a new canvas is 300 x 150, blank, with a black fill style |
| `Textures.Canvas.FillRect` | src/app/components/GithubCity.tsx:34 | `fillRect` appends one rectangle in the current fill style and changes nothing else |
| `Textures.CreateWindowTexture` | src/app/components/GithubCity.tsx:23-49 | the canvas steps yield the 32 x 32 repeat-wrapped texture of `WindowPaints`; the result is null exactly when there is no 2D context |
| `Textures.WindowLayout` | src/app/components/GithubCity.tsx:30-43 | the canvas is first filled with the wall colour; then come four 8 x 8 windows in the window colour, each inside the canvas and pairwise disjoint |
| `Textures.WindowPixels` | src/app/components/GithubCity.tsx:34-43 | every pixel is covered by the wall fill; exactly one window covers it when it lies at 4..11 within its 16-pixel half on both axes, and none otherwise |
| `Textures.WallIsSideColor` | src/app/components/GithubCity.tsx:31-33 | the texture's wall colour is the buildings' side colour on the 0..255 scale |
| `Grid.DataIndexInRange` | src/app/components/GithubCity.tsx:111 | every cell of the 14 x 26 grid reads a day index below 364 |
| `Grid.CellOfDataIndex` | src/app/components/GithubCity.tsx:107-111 | `CellOfDay` inverts the fold on grid cells |
| `Grid.DataIndexOfCell` | src/app/components/GithubCity.tsx:107-111 | every day below 364 is read by a grid cell: the fold is onto [0, 364) |
| `Grid.DataIndexInjective` | src/app/components/GithubCity.tsx:111 | no two grid cells read the same day |
| `Grid.CellAtVisit` | src/app/components/GithubCity.tsx:107-108 | the row-major visiting order finds each grid cell at its visit position |
| `Grid.VisitCellAt` | src/app/components/GithubCity.tsx:107-108 | the k-th visited cell is a grid cell, at visit position k |
| `Grid.PresentCellsMembers` | src/app/components/GithubCity.tsx:107-112 | the cells that get a building are exactly the visited grid cells whose day index is below the data's length |
| `Grid.PresentCellsOrdered` | src/app/components/GithubCity.tsx:107-108 | buildings are made in row-major visiting order, so no cell twice |
| `Grid.RowCellsMembers` | src/app/components/GithubCity.tsx:108-112 | one pass of the inner loop makes buildings for exactly the cells of its row whose day index is inside the data |
| `Grid.PresentCellsByRow` | src/app/components/GithubCity.tsx:107-108 | the cells of the whole grid are those of the earlier rows followed by those of the current row |
| `Grid.PresentDaysDistinct` | src/app/components/GithubCity.tsx:111-114 | no day is shown by two buildings |
| `Grid.PresentDaysAreAll` | src/app/components/GithubCity.tsx:111-114 | the days shown are exactly those below min(data.length, 364), in both directions |
| `Grid.PresentDayInRange` | src/app/components/GithubCity.tsx:112 | each shown day is below both data.length and 364 |
| `Grid.PresentDayShown` | src/app/components/GithubCity.tsx:111-112 | each day below both data.length and 364 is shown |
| `Grid.PresentCellCount` | src/app/components/GithubCity.tsx:112-114 | the number of buildings is min(data.length, 364) |
| `City.PlatformShape` | src/app/components/GithubCity.tsx:73-104 | the base is 1.4 times the grid and 0.15 deep with its top at z = 0; the top layer is 0.95 times the base, half as deep, at z = -0.0375, also with its top at z = 0 |
| `City.VerticalRepeat` | src/app/components/GithubCity.tsx:174 | the texture's v repeat is at least 1 |
| `City.VerticalRepeatGrows` | src/app/components/GithubCity.tsx:174 | taller buildings never get fewer copies of the window texture along its v axis, and from height 0.5 on the repeat is floor(2 * height) |
| `City.TunedFaces` | src/app/components/GithubCity.tsx:137-177 | a building has six materials |
| `City.TuneMaterials` | src/app/components/GithubCity.tsx:172-177 | the in-place `forEach` leaves each slot tuned: texture repeat (1, VerticalRepeat) when textured, shininess 50 |
| `City.FaceLayout` | src/app/components/GithubCity.tsx:137-177 | slots 0, 1, 4 and 5 (the +x, -x, +z and -z faces) carry the window texture (also as bump map, scale 0.01) with repeat (1, VerticalRepeat(height)) and the side colour; slot 2 (+y) is untextured in the base colour; slot 3 (-y) is untextured in the side colour; all have shininess 50 |
| `City.BuildingShape` | src/app/components/GithubCity.tsx:116-131 | a building is 0.25 x 0.25 and as tall as its height; it stands on the platform top (z = 0); its slot 2 material (the +y face) has the palette colour and slot 0 (the +x face) the darkened colour |
| `City.BuildingFaces` | src/app/components/GithubCity.tsx:119-184 | buildings rise along z (box depth = height, centre at height / 2), so slot 4 (+z) is the roof and slot 5 (-z) the floor; both carry the window texture (when there is a context) in the side colour, while the untextured palette-coloured slot 2 is the wall facing +y |
| `City.BuildingOnGrid` | src/app/components/GithubCity.tsx:62-71 | a building on a grid cell lies within [-5.2, 5.2] x [-2.8, 2.8], which lies within the top slab |
| `City.BuildingsApart` | src/app/components/GithubCity.tsx:182-183 | buildings on different cells are at least the 0.15 spacing apart along a row or a column, so no two share a position |
| `City.PresentCellsShown` | src/app/components/GithubCity.tsx:112-114 | every cell that gets a building reads a day inside the data |
| `City.RowCellsShown` | src/app/components/GithubCity.tsx:112-114 | every cell of one row that gets a building reads a day inside the data |
| `City.RowBuiltStep` | src/app/components/GithubCity.tsx:108-114 | visiting cell (row, col) adds its building exactly when its day index is inside the data, and otherwise adds nothing |
| `City.BuiltUpToByRow` | src/app/components/GithubCity.tsx:107-108 | one pass of the outer loop appends the buildings of one row |
| `City.SceneLayout` | src/app/components/GithubCity.tsx:89-114 | the group is the two slabs followed by min(data.length, 364) buildings, even for empty data; the j-th building stands on the j-th present cell and is raised for that cell's own day |
| `City.MakeBuilding` | src/app/components/GithubCity.tsx:114-186 | the loop body makes the building of `Building`: its height, its colours, its six tuned materials and its centre |
| `City.MakeMaterials` | src/app/components/GithubCity.tsx:131-177 | the material array built and tuned in place equals the tuned face list |
| `City.BuildScene` | src/app/components/GithubCity.tsx:59-188 | the group built by the effect is `Scene`: the platform, then one building per present cell in row-major order |
| `City.AddRow` | src/app/components/GithubCity.tsx:108-187 | one pass of the inner loop appends that row's buildings |
| `City.AddCell` | src/app/components/GithubCity.tsx:111-186 | a cell whose index is past the data is skipped; otherwise its day's building is appended |
| `GitHub.ValidateGitHubUsername` | src/app/lib/github.ts:143-145 | a username passes exactly when it has 1 to 39 characters, all ASCII letters, digits or '-', starts with a letter or digit, and every '-' is followed by a letter or digit |
| `GitHub.RegexTestMeaning` | src/app/lib/github.ts:144 | the case-insensitive regex matches exactly the strings that follow those character rules |
| `GitHub.RepetitionMatchesMeaning` | src/app/lib/github.ts:144 | `(?:...){0,k}$` from position i matches exactly when at most k characters remain and each remaining one matches the group |
| `GitHub.ClassMatchesAlnum` | src/app/lib/github.ts:144 | under the `i` flag `[a-z\d]` matches exactly the ASCII letters of both cases and the digits |
| `GitHub.FlattenLength` | src/app/lib/github.ts:115-122 | the flattened list is as long as all weeks together |
| `GitHub.FlattenAt` | src/app/lib/github.ts:115-122 | day d of week w is at position (days of earlier weeks) + d: week order, then day order |
| `GitHub.Relabel` | src/app/lib/github.ts:116-120 | rewriting the dates keeps the number of days |
| `GitHub.RelabelKeepsCounts` | src/app/lib/github.ts:117-120 | each day keeps its count and only its date is rewritten |
| `GitHub.RelabelAppend` | src/app/lib/github.ts:115-122 | rewriting dates distributes over concatenation, week by week |
| `GitHub.TrimToWindowIsSuffix` | src/app/lib/github.ts:125-132 | the default window is the last min(n', days) days of the popped list (none when days <= 0), in order and never padded |
| `GitHub.PopRemovesOnlyTrailingZero` | src/app/lib/github.ts:127-129 | the pop removes the last day exactly when its count is 0 |
| `GitHub.CustomRangeKeepsEveryDay` | src/app/lib/github.ts:125 | with both custom dates given, the result is exactly the flattened list with rewritten dates, `Relabel(Flatten(weeks))`, under the user's name; with `FlattenAt` and `RelabelKeepsCounts` this is every day of every week, in week order then day order, counts kept |
| `GitHub.EmptyCalendarIsAnError` | src/app/lib/github.ts:126-137 | in the default mode an empty calendar fails at the last-element read and yields the generic error message |
| `GitHub.EmptyWeeksFlattenToNothing` | src/app/lib/github.ts:115-122 | weeks without days flatten to the empty list |
| `GitHub.CollectDays` | src/app/lib/github.ts:115-122 | the nested `forEach`/`push` yields the flattened days with rewritten dates |
| `GitHub.Fetcher.constructor` | src/app/lib/github.ts:42 | a fetcher keeps the username it was made for |
| `GitHub.Fetcher.FetchContributions` | src/app/lib/github.ts:84-139 | the method resolves to `FetchResult` in every case: a failed request gives the generic message; a null user gives the "Can't fetch" message; with both custom dates, all days; otherwise the popped and trimmed window, or the generic message for an empty list |
| `GitHub.GetGitHubContributions` | src/app/lib/github.ts:149-159 | an invalid username rejects with "Invalid GitHub username format"; any other username resolves to the default-window fetch with the given `days` (365 unless given) |

## Left out

- React and the render loop are not modelled: `useIsMobile`, the camera and OrbitControls settings, `useFrame` rotation, and JSX.
- The `if (!meshRef.current) return` guard is not modelled.
- The swap of the mesh's children for the new group (src/app/components/GithubCity.tsx:191-197) is not modelled. The model ends with the group's list of meshes.
- three.js object identity is not modelled.
  - Meshes, materials and textures are values.
  - The four textured materials of a building (slots 0, 1, 4 and 5) share one texture object in the code. Setting its repeat four times to the same value is modelled as setting it once on each copy, with the same outcome.
  - The day objects of the API response are rewritten in place and pushed. The model builds new values.
- GPU resources and texture upload are not modelled.
- Pixel rasterisation and compositing are not modelled. A canvas is its list of painted rectangles and fill styles.
- three.js colour management is not modelled. A hex colour becomes channels of value/255, with no sRGB-to-linear conversion.
- d3's colour interpolation and formatting are not modelled. At an integer domain point d3 returns the stop's colour formatted as `rgb(r, g, b)`. The model looks up the hex stop instead, which `THREE.Color` parses to the same channels.
- `Math.log` is abstract (`IsLog`, `Increasing`). Floating-point rounding of heights, positions and channels is not modelled; they are exact reals.
- Scales.HeightMonotone: compares positive counts only. Whether a count of 1 is taller than the 0.05 of a zero count depends on the value of log 2 / log 31, which the abstract logarithm does not fix.
- HTTP is not modelled: `Fetcher.fetch` (the axios POST and the bearer token), `getGraphQLQuery` and its query text.
- moment's date arithmetic for `from`/`to` is not modelled. The date rewrite of each day is the input function `dayOfMonth`.
- `console.log` and `console.error` are not modelled.
- A request that throws (network error, error status, a body without `data`) is the single case `RequestFailed`.
- Contribution counts are natural numbers (`nat`), because the calendar reports non-negative whole counts. The source types them as `number`; a negative or fractional count (height 0.05 for a negative count, an extrapolated d3 colour below the first stop) is not modelled.
- `days` is an integer. A fractional `days` would be truncated by `splice` in JavaScript; the model does not cover that.
- GitHub.GetGitHubContributions: its contract cannot say that the Fetcher is created only after validation. The method returns before `new Fetcher` on that path.
- src/app/page.tsx is not part of this model. It holds form state, loading flags and layout.
