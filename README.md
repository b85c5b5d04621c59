# Event-production engineering calculators, modelled in Dafny

This project models the engineering core of an event-production planner.
From an event record's venue and stage sizes, table gap, FOH and virgin-road
flags and event category, it derives:

- the banquet-table grid, head count and side-clearance notes (`calculate_space`);
- the main sound system, delay speaker and subwoofers (`calculate_audio`);
- the lighting fixture patch, its DMX addresses, the fixture plot and the
  power estimate (`LightingEngine`).

It also models the default checklist that is generated when an event is first
saved (`create_default_tasks`).

Modules:

- `Numerics`: the Python numeric primitives on exact reals. These are `//`
  on floats, `math.ceil`, `int()` truncation and `round(x, 2)`.
- `EventModel`: the event fields that are read, the field defaults, and the
  concert/festival test.
- `Space`: `calculate_space`, with the grid lemmas and a worked example.
- `Audio`: `calculate_audio`.
- `Lighting`: the `LightingEngine` class. The patch and the plot are
  specified entry by entry, in closed form. `GetPatchData` runs the source's
  three `for` loops with a running address; each loop sits in a method of its
  own (`PatchBeams`, `PatchWashes`, `PatchSpots`) so that each is verified
  separately.
- `LightingProps`: lemmas on the lighting plan. They cover addressing, order
  and labels, wattage and power, and positions.
- `Tasks`: `create_default_tasks`. Dates are day numbers, and the bulk
  insert is modelled as returning the list of tasks.

Lengths are `real` metres and arithmetic is exact. Message and label texts
are abstract: the model records which list a note goes to and what it
reports, not its wording. In the same way, fixture kinds stand for the
fixture names, and `FixtureId(kind, n)` stands for the labels `B1`, `W2`, `S3`.

The code of `main/calculators.py` behaves as follows:

- There are no seating modes. `seating_type` is never read, and every table
  is an 8-seat banquet table.
- The available width is `venue_width - 3.0`.
- The grid pitch is the table gap alone, with no table footprint added.
  For the default event this gives 5 x 9 = 45 tables and 360 guests.
- Negative available space does not short-circuit, and no closing info
  message is added.
- Power is the raw wattage times 1.2 divided by 1000, rounded to two
  decimals. There is no per-category safety margin and no generator tier.

## Model

| member | source | states |
|---|---|---|
| Numerics.FloorDiv | main/calculators.py:29-32 | float `a // b` for b > 0 is the largest integer q with q·b <= a |
| Numerics.FloorDivUnique | main/calculators.py:29-32 | any integer that meets the floor bounds is the quotient |
| Numerics.Ceil | main/calculators.py:88-90 | `math.ceil(x)` is the integer r with x <= r < x + 1 |
| Numerics.Trunc | main/calculators.py:53 | `int(x)` truncates toward zero: floor bounds for x >= 0, ceiling bounds for x < 0 |
| Numerics.Round2 | main/calculators.py:121 | `round(x, 2)` is a whole number of hundredths within 0.005 of x |
| EventModel.IsPerformance | main/calculators.py:47 | an event is a performance iff it is a concert or a festival; general events, conferences and exhibitions are not (the same test recurs at calculators.py:84 and models.py:112) |
| EventModel.DefaultEvent | main/models.py:41-66 | a new event is a general event in a 20 × 40 m venue with a 14.4 × 4.8 m stage, a 3 m table gap, an FOH booth and no virgin road; its stage lies inside the venue and its gap is positive |
| Space.ScreenSpace | main/calculators.py:22 | the stage and two equal side strips of the reported clearance fill the venue width |
| Space.AvailWidth | main/calculators.py:28 | the table area is the venue width less 3 m of side margins |
| Space.AvailDepth | main/calculators.py:30-31 | the stage, a 4 m walkway, the table area and a 4 m FOH booth (2 m walkway without one) fill the venue depth |
| Space.CalculateSpace | main/calculators.py:14-40 | table count is never negative and pax = 8 × tables; an info note is made iff the side clearance is ≥ 2.5 m, a warning iff < 1.0 m, never both, and each carries the clearance |
| Space.TableGrid | main/calculators.py:28-39 | with cols and rows the floors of the available width (venue − 3) and depth (venue − stage − 4 − 4 or 2 for FOH) over the gap, tables = max(0, cols·rows − rows if virgin road), pax = 8 × tables |
| Space.DefaultEventLayout | main/calculators.py:14-39 | the default event yields no warning, one info note for 2.8 m, 45 tables and 360 guests |
| Space.DegenerateVenueSeatsTables | main/calculators.py:28-36 | a 2 × 5 m venue with negative available width and depth still gets 2 tables and 16 guests |
| Space.CalculateSpaceClamped | main/calculators.py:28-39 | clamping cols and rows at 0 gives zero tables whenever available width or depth is negative, and agrees with the source otherwise |
| Audio.CalculateAudio | main/calculators.py:42-77 | line array iff depth > 25 m and the event is a concert or festival, with system type, speaker and main type agreeing; a delay speaker iff depth ≥ 20 m, at 0.55·depth, timed to the travel time at 340 m/s plus 15 ms (so > 15 ms), position 0 otherwise; dual subs for performances only, 4 iff width > 20 m, else 2 |
| Audio.LineArrayModules | main/calculators.py:51-55 | the line array has one cabinet per full 5 m of depth, at least five, so the floor of four never applies |
| Audio.DelayThreshold | main/calculators.py:61-72 | at 20 m the delay sits at 11 m with a setting between 47.35 and 47.36 ms; at 19.9 m there is none |
| Audio.ConcertThirtyMetres | main/calculators.py:51-55 | a 30 m concert gets six cabinets |
| Lighting.CoverCount | main/calculators.py:88-90 | `ceil(w / gap)` is the fewest fixtures gap apart that cover w, non-negative for w ≥ 0 |
| Lighting.NumBeams | main/calculators.py:87-88 | the fewest beams covering the width at 1.5 m for performances, 3.0 m otherwise |
| Lighting.NumWash | main/calculators.py:89 | the fewest washes covering the width at 2 m |
| Lighting.NumSpots | main/calculators.py:90-91 | the spot count is even and the least even n with 3n ≥ w |
| Lighting.PatchPlan | main/calculators.py:94-118 | the patch has nb + nw + ns rows; row k is beam k + 1 at 1 + 18k (16 ch, 350 W) for k < nb, else wash k − nb + 1 at 1 + 18·nb + 10·(k − nb) (8 ch, 180 W) for k < nb + nw, else spot k − nb − nw + 1 at 1 + 18·nb + 10·nw + (k − nb − nw) (1 ch, 750 W) |
| Lighting.LayoutPlan | main/calculators.py:96-117 | the plot has nb + nw + ns entries; beams at y = d/2 − 0.5 and washes at y = d/2 − 0.8 spread at w/(n + 1) steps from −w/2, spots at y = −d/2 − 3.0 with x = (i − ns/2 + 0.5)·2.5 |
| Lighting.SumWatts | main/calculators.py:120 | the sum of the rows' wattages; non-negative when every wattage is, a multiple of 10 when every wattage is |
| Lighting.PowerKw | main/calculators.py:120-121 | the power figure is a whole number of hundredths of a kW within 0.005 kW of the raw wattage × 1.2 / 1000 |
| Lighting.PatchBeams | main/calculators.py:97-103 | the beam loop yields exactly the plan's first nb patch and plot entries and leaves the address at 1 + 18·nb |
| Lighting.PatchWashes | main/calculators.py:105-111 | the wash loop extends this to nb + nw entries, the address at 1 + 18·nb + 10·nw |
| Lighting.PatchSpots | main/calculators.py:113-118 | the spot loop extends this to all nb + nw + ns entries, the address at 1 + 18·nb + 10·nw + ns |
| Lighting.LightingEngine.constructor | main/calculators.py:80-84 | the engine holds the stage width, depth and the concert/festival flag |
| Lighting.LightingEngine.GetPatchData | main/calculators.py:86-121 | the patch and the plot equal the closed-form plan for the computed counts, and the power is `round(sum of watts × 1.2 / 1000, 2)` |
| LightingProps.PlanAddresses | main/calculators.py:94-118 | addresses start at 1; each fixture has its kind's channels (16/8/1) and watts; each channel range ends at or before every later fixture's address; the last range ends by 18·nb + 10·nw + ns |
| LightingProps.PlanStrides | main/calculators.py:99-118 | consecutive addresses differ by the kind's stride: 18, 10 or 1 |
| LightingProps.PlanOrderAndLabels | main/calculators.py:97-118 | beams come first, then washes, then spots; labels carry kind and 1-based number and are pairwise distinct |
| LightingProps.PrefixWatts | main/calculators.py:120 | the watt sum of any prefix of the patch, counted per kind |
| LightingProps.PlanWatts | main/calculators.py:101-120 | total watts = 350·nb + 180·nw + 750·ns |
| LightingProps.NoRoundingTie | main/calculators.py:121 | a multiple of 10 W, × 1.2 / 1000, is never exactly half-way between two hundredths, so half-up and half-even rounding agree on it |
| LightingProps.PlanPower | main/calculators.py:120-121 | every plan's power figure is that of 350·nb + 180·nw + 750·ns watts, and no rounding tie occurs |
| LightingProps.LayoutParallelsPatch | main/calculators.py:101-117 | plot entry k has the kind of patch entry k, and both lists have the same length |
| LightingProps.SpreadInside | main/calculators.py:98-108 | beam and wash x positions lie strictly inside (−w/2, w/2), w/(n+1) apart |
| LightingProps.LayoutRows | main/calculators.py:98-117 | beams and washes lie inside the stage width; the y positions are d/2 − 0.5, d/2 − 0.8 and −d/2 − 3.0 |
| LightingProps.SpotsSymmetric | main/calculators.py:114-117 | spot k mirrors spot ns−1−k about the centre line, and consecutive spots are 2.5 m apart |
| LightingProps.NegativeWidthCounts | main/calculators.py:87-108 | for a negative stage width a beam or wash count is −1, so `w / (n + 1)` divides by zero, exactly when −4 < w ≤ −1.5 for performances and −6 < w ≤ −2 otherwise; all counts are at most 0 for any negative width |
| LightingProps.DefaultStagePlan | main/calculators.py:86-121 | the default 14.4 m stage of a general event gets 5 beams, 8 washes and 6 spots, 7690 W, reported as 9.23 kW |
| Tasks.CreateDefaultTasks | main/models.py:101-118 | no tasks unless created; otherwise kick-off at −30 and drawings at −14 days first, then cue sheet at −7 and media check at −3 for concerts and festivals (4 tasks), or presentations at −3 otherwise (3 tasks); every task references the event and is not done; deadlines lie in [date − 30, date), strictly increase, and the contents are distinct |

## Left out

- Rendering is not modelled: `get_image`, `draw_space`, `draw_audio` and `draw_light` produce matplotlib images as base64.
- Message texts, the `:.1f` formatting, the speaker description strings and the fixture name strings are abstract. The model records which list a note goes to and the clearance it reports; speakers and fixtures are constructors.
- Floating point is not modelled. Arithmetic is exact on reals, so IEEE rounding in `0.55 * depth`, the divisions or `1.2 / 1000` is not captured.
- Numerics.Round2: rounds half up where Python's `round` rounds half to even on binary floats. LightingProps.NoRoundingTie proves that no tie occurs for any plan's wattage, but binary-float representation error is not modelled.
- Lighting.LightingEngine.GetPatchData: requires a stage width ≥ 0. For negative widths the source raises ZeroDivisionError exactly when the beam or wash count is −1: −4 < w ≤ −1.5 for performances, −6 < w ≤ −2 otherwise (a spot count of −1 is bumped to 0 and divides nothing). For any other negative width the loops do not run, and the source returns two empty lists and power 0.0. LightingProps.NegativeWidthCounts proves the counts behind this; the model does not return the error or the empty result.
- Space.CalculateSpace: requires a positive table gap. For a zero gap Python raises ZeroDivisionError. For a negative gap Python computes a result, which the model does not cover: on the default event a gap of −3 gives cols = −6 and rows = −10, hence 60 tables. The stage width is not constrained.
- Django plumbing is not modelled: field declarations, the `Cue` and `Task` schemas, the `post_save` signal wiring and the ORM `bulk_create`. The request views, the forms, the admin and the URL configuration are left out too.
- Fields the calculators never read are not modelled: `seating_type`, venue height, stage height and the equipment flags.

## Findings

| source | as written | input that shows it | evidently intended | confidence | as-written member | corrected member |
|---|---|---|---|---|---|---|
| main/calculators.py:28-36 | `max(0, cols * rows)` multiplies two floors that are both negative when the venue is too small, giving a positive product | venue 2 × 5 m, stage 1 × 1 m, gap 3, FOH: cols = −1, rows = −2, 2 tables, 16 pax | no tables when the available width or depth is negative | medium, not executed | Space.DegenerateVenueSeatsTables | Space.CalculateSpaceClamped |
