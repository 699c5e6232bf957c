# Quadratic functions study page — verified model

The page teaches quadratic functions f(x) = a·x² + b·x + c. It has four parts:

- a math engine. It computes the discriminant, the vertex, the real roots and f at a chosen x.
- an interactive graph. A draw routine picks a view window around the vertex and maps graph coordinates to canvas pixels. It then draws a grid, the axes, the parabola and the labelled key points.
- a six-question multiple-choice quiz. It has per-option colouring, a per-question verdict and a score.
- a download button. It writes a standalone HTML page whose script is a second, hand-written copy of the engine, the draw routine and the quiz.

The model is in six Dafny modules:

| module | file | models |
|---|---|---|
| `Quadratic` | quadratic.dfy | the `disc`, `vertex`, `roots` and `yAtX` memos over exact reals |
| `ViewWindow` | viewport.dfy | the sample loop and the window bounds |
| `Mapper` | mapper.dfy | `toScreenX` and `toScreenY` |
| `Render` | render.dfy | the draw routine as a method that returns abstract draw commands |
| `Quiz` | quiz.dfy | the live quiz as a value-level state machine |
| `Export` | export.dfy | the exported copy: `info()`, `draw()` and an in-place quiz object, proved to agree with the live page |

Math.sqrt is not modelled as code. The value it returns for the discriminant is a parameter `sqrtD` of every member that needs it. The predicate `SqrtOfDisc` states the only facts the code relies on: when D > 0, `sqrtD` is non-negative and squares to D.

The draw routine's canvas calls are modelled as a list of commands. Each command is a clear, the background fill, a grid or axis line, a move/line of the parabola's path, or a labelled marker, all in pixels. `Render.Scene` specifies the whole list for a canvas of w × h pixels and a set of label strings. The live page uses a 600 × 300 canvas with the labels `x₁`, `x₂` and `y-intercept` (`Render.DrawLive`). The export uses 800 × 360 with `x1`, `x2` and `y-int` (`Export.Draw`). `Export.ExportDrawsLivePicture` shows that the two are otherwise the same picture.

Some behaviour of the code worth knowing, all of it modelled as written:

- The two roots are listed in formula order, (−b − √D)/(2a) first. For a < 0 that is the larger root (`Quadratic.RootOrder`).
- The x range of the window depends only on the vertex: it is the vertex ± 6. A list of the vertex, the roots and 0 is built first but never used. So roots and the y-intercept can fall outside the graph (`ViewWindow.InterceptMayLeaveWindow`).
- After checking, only the chosen option is coloured. The right answer of a wrongly answered question is not coloured.
- The exported quiz declares a `submitted` flag but never sets it. It also has no per-option colouring. It only writes the verdict lines and the score.
- The live page recomputes its verdicts and score from the current choices on every render. The exported quiz writes them only when Check is pressed. A choice changed after checking therefore leaves stale verdict and score lines on the exported page until the next Check or Reset (`Export.ExportQuiz.Choose` keeps `explain` and `score`).

## Model

| member | source | states |
|---|---|---|
| Quadratic.Eval | src/App.jsx:28 | f(x) as the `yAtX` memo computes it; at x = 0 it is c, the y-intercept |
| Quadratic.Discriminant | src/App.jsx:12 | b² − 4ac as the `disc` memo computes it; it is ≥ 0 whenever a·c ≤ 0 |
| Quadratic.Vertex | src/App.jsx:13-17 | the vertex is the stationary point (2a·xv + b = 0), its height is f(xv), and 4a·yv = −D |
| Quadratic.Roots | src/App.jsx:18-26 | no root exactly when D < 0, one exactly when D = 0, two exactly when D > 0 |
| Quadratic.CompletedSquare | src/App.jsx:12-28 | 4a·f(x) = (2ax + b)² − D for every x |
| Quadratic.VertexForm | src/App.jsx:13-17 | f(x) = a(x − xv)² + yv for every x |
| Quadratic.AxisOfSymmetry | src/App.jsx:13-17 | f(xv + t) = f(xv − t) for every t |
| Quadratic.VertexIsExtremum | src/App.jsx:13-17 | the vertex is the minimum when a > 0 and the maximum when a < 0, strictly at every other x |
| Quadratic.RootsAreExactlyTheZeros | src/App.jsx:18-28 | x is in the root list if and only if f(x) = 0 |
| Quadratic.DoubleRootCase | src/App.jsx:19-22 | for D = 0 the single listed root is the only zero |
| Quadratic.TwoRootCase | src/App.jsx:23-25 | for D > 0, (2ax + b)² = D exactly at the two listed roots |
| Quadratic.RootOrder | src/App.jsx:24-25 | the two roots differ, and the first is the smaller exactly when a > 0 |
| Quadratic.DoubleRootIsVertex | src/App.jsx:19-22 | the double root is the vertex abscissa and the vertex lies on the x-axis |
| Quadratic.RootsIndependentOfSqrt | src/App.jsx:24-25 | any two admissible square-root values give the same root list |
| Quadratic.ExampleOpensUp | src/App.jsx:137-140 | for y = 2x² − 8x + 6 the vertex is (2, −2), D = 16, the roots are 1 then 3, and the y-intercept is 6 |
| Quadratic.ExampleOpensDown | src/App.jsx:18-26 | for y = −x² + 1 the root 1 is listed before −1 |
| ViewWindow.MinOf | src/App.jsx:44-46 | the result is an element of the list and at most every element |
| ViewWindow.MaxOf | src/App.jsx:45-47 | the result is an element of the list and at least every element |
| ViewWindow.SampleXs | src/App.jsx:41-42 | the loop pushes xv − 5, …, xv + 5 in order |
| ViewWindow.ComputeWindow | src/App.jsx:41-47 | the draw routine's bounds are those of `Window` |
| ViewWindow.WindowX | src/App.jsx:44-45 | minX = xv − 6 and maxX = xv + 6 |
| ViewWindow.WindowY | src/App.jsx:46-47 | the y range holds c and yv with a margin of 2 on each side, and each end is 2 beyond a sampled height or c |
| ViewWindow.WindowWellFormed | src/App.jsx:44-50 | the window is 12 wide and at least 4 tall, so neither map divides by zero |
| ViewWindow.SampleHeight | src/App.jsx:42-43 | sample k has height yv + a(k − 5)², bounded by yv + 25a on the side a opens to |
| ViewWindow.HeightsBetween | src/App.jsx:42-43 | every sampled height lies between yv and yv + 25a |
| ViewWindow.ExtremesWithIntercept | src/App.jsx:46-47 | appending c to heights spanning [lo, hi] gives the extremes min(lo, c) and max(hi, c) |
| ViewWindow.WindowYClosedForm | src/App.jsx:46-47 | the y range is [min(yv, c) − 2, max(yv + 25a, c) + 2] for a > 0, and the mirror image for a < 0 |
| ViewWindow.InterceptMayLeaveWindow | src/App.jsx:39-45 | for y = 0.5x² − 10x, within the slider ranges, the window is x ∈ [4, 16], which excludes the y-intercept and both roots 0 and 20 |
| Mapper.ToScreenX | src/App.jsx:49 | minX maps to pixel 0 and maxX to pixel w |
| Mapper.ToScreenY | src/App.jsx:50 | minY maps to row h and maxY to row 0 |
| Mapper.ToScreenXIncreasing | src/App.jsx:49 | toScreenX is strictly increasing |
| Mapper.ToScreenYDecreasing | src/App.jsx:50 | toScreenY is strictly decreasing |
| Mapper.ToScreenYAffine | src/App.jsx:50 | equal steps up in y give equal steps, of the opposite sign, in pixel rows |
| Mapper.InsideWindowIsOnCanvas | src/App.jsx:49-50 | points of the window land inside the w × h canvas |
| Mapper.ToScreenXAffine | src/App.jsx:49 | equal steps in x give equal steps in pixels |
| Render.Ceil | src/App.jsx:62 | Math.ceil(r) is the integer n with r ≤ n < r + 1 |
| Render.GridValuesExact | src/App.jsx:62-71 | the grid loops visit exactly the integers of the range, ascending by one |
| Render.GridLinesOrdered | src/App.jsx:62-71 | vertical grid lines run left to right and horizontal ones from the bottom of the canvas to its top; every line lies on the canvas (0 ≤ x ≤ w, 0 ≤ y ≤ h) |
| Render.Axes | src/App.jsx:74-86 | definition of the two axis lines; their placement is stated by `Render.AxesPlacement` |
| Render.AxesPlacement | src/App.jsx:74-86 | the y axis is the vertical line at screen x of 0 and the x axis the horizontal line at screen y of 0, each spanning the canvas; each lands on the canvas exactly when 0 lies in the window's range on its axis |
| Render.CurveShape | src/App.jsx:92-104 | the curve has w + 1 samples from minX to maxX; sample i is at pixel column i and height f(x); the first sample moves and the others draw |
| Render.SampleColumn | src/App.jsx:93-96 | curve sample i maps to screen x = i |
| Render.KeyPointsShape | src/App.jsx:119-123 | the key points are the vertex, then each root on the x-axis, the first labelled x₁ and any later one x₂, then (0, c); there are 2 + (number of roots) |
| Render.KeyPointsOnCurve | src/App.jsx:119-123 | every key point lies on the parabola |
| Render.DrawColumns | src/App.jsx:62-66 | the first grid loop emits the vertical grid lines of `Columns` |
| Render.DrawRows | src/App.jsx:67-71 | the second grid loop emits the horizontal grid lines of `Rows` |
| Render.DrawCurve | src/App.jsx:92-104 | the curve loop with its `first` flag emits `Curve` |
| Render.DrawKeyPoints | src/App.jsx:107-123 | the marker calls emit the key points in order |
| Render.DrawPicture | src/App.jsx:36-123 | given the window and the key points, the drawing calls emit clear, background, grid, axes, curve and markers in that order (`Picture`) |
| Render.Draw | src/App.jsx:30-124 | one run of the draw routine emits `Scene` with the live labels |
| Render.DrawLive | src/App.jsx:232 | on the live 600 × 300 canvas the draw routine emits `Scene` for that size |
| Quiz.BankIsWellFormed | src/App.jsx:127-170 | the bank's ids are distinct and every answer index is one of the options |
| Quiz.Select | src/App.jsx:288 | the chosen option of q is recorded, every other entry and the flag are kept |
| Quiz.Check | src/App.jsx:302 | checking raises the flag and keeps the choices |
| Quiz.Reset | src/App.jsx:303 | reset empties the choices and lowers the flag |
| Quiz.SelectKeepsReachable | src/App.jsx:286-288 | choosing an option of a bank question keeps every choice an option of its question |
| Quiz.CheckAndResetKeepReachable | src/App.jsx:302-303 | check and reset keep that invariant |
| Quiz.RightOnes | src/App.jsx:175-177 | the list holds exactly the questions answered right and is no longer than the bank |
| Quiz.ScoreFromCounts | src/App.jsx:175-177 | the reduce adds the number of right answers to its starting total |
| Quiz.ScoreIsCount | src/App.jsx:175-177 | the score is the number of right answers, between 0 and the number of questions |
| Quiz.FullMarks | src/App.jsx:175-177 | every question is right exactly when the count of right answers equals the number of questions |
| Quiz.NothingChosenNothingRight | src/App.jsx:172-177 | with no choice made no question is right |
| Quiz.ZeroScore | src/App.jsx:175-177 | the score is 0 exactly when no question is right, and it is 0 for the empty map |
| Quiz.AllScore | src/App.jsx:175-177 | full score exactly when every question is right |
| Quiz.ScoreLine | src/App.jsx:304-306 | the score line is shown exactly when submitted, and its value is the number of questions answered right, between 0 and the number of questions |
| Quiz.Feedback | src/App.jsx:293-297 | no verdict before checking; then "Correct!" exactly when the chosen option is the answer, otherwise "Not quite." |
| Quiz.OptionLook | src/App.jsx:287 | before checking every option is hoverable; after it an option is green iff chosen and right, red iff chosen and wrong, plain otherwise |
| Quiz.AtMostOneColoured | src/App.jsx:287 | when one option of a question is coloured every other option is plain |
| Quiz.ColoursMatchVerdict | src/App.jsx:287-297 | some option is green iff the verdict is "Correct!", and some option is red iff a wrong option was chosen |
| Quiz.ReachableChoiceIsOption | src/App.jsx:286-288 | in a bank with distinct ids, every state the handlers reach records for each question only one of its options, and its answer is an option too |
| Quiz.BankColoursMatchVerdict | src/App.jsx:287-297 | on the page's bank, in every reachable state, the colours agree with the verdict in both directions |
| Quiz.CheckWithoutAnswers | src/App.jsx:287-305 | checking with nothing chosen shows plain options, "Not quite." everywhere and a score of 0 |
| Quiz.ResetHidesEverything | src/App.jsx:303-305 | after reset every option is hoverable and no verdict or score is shown |
| Quiz.SelectMovesScoreByOne | src/App.jsx:175-177 | with distinct ids one choice moves the score by at most one: never down for the right answer, never up for a wrong one |
| Quiz.SameVerdictsSameCount | src/App.jsx:175-177 | two answer maps that judge every question alike give the same right answers |
| Export.ComputeInfo | src/App.jsx:335 | definition of the export's `info()`, with D > 0 tested first; proved equal to the live memos by `Export.InfoAgrees` |
| Export.InfoAgrees | src/App.jsx:335 | the export's `info()` returns the live discriminant, vertex and ordered root list |
| Export.DotsRelabelled | src/App.jsx:335 | the export's markers are the live markers with x1, x2 and y-int for x₁, x₂ and y-intercept |
| Export.ExportDrawsLivePicture | src/App.jsx:335 | on the same canvas the export's `draw()` issues the live commands, relabelled |
| Export.Draw | src/App.jsx:335 | one run of the export's `draw()` emits `Scene` on an 800 × 360 canvas with the export labels |
| Export.ScoreAgrees | src/App.jsx:335 | the export's 1-or-0 reduce equals the live reduce from any starting total |
| Export.ExportQuiz.constructor | src/App.jsx:335 | the loaded page has no choice, `submitted` false, blank verdict lines and a blank score |
| Export.ExportQuiz.Choose | src/App.jsx:335 | a change handler overwrites one entry of `state.answers` in place and nothing else |
| Export.ExportQuiz.CheckAnswers | src/App.jsx:335 | each verdict line and the score equal what the live page shows after checking the same choices |
| Export.ExportQuiz.Reset | src/App.jsx:335 | reset empties `state.answers`, blanks every line and the score, and leaves `submitted` alone |

## Left out

- React hooks, JSX markup, styling classes and the article cards are presentation only.
- Canvas side effects are not modelled: colours, line widths, fonts, the marker radius and the +6/−6 pixel offset of each label.
- The `if (!canvas) return` guard is not modelled. It only matters before the canvas is mounted.
- `gridStepX` and `gridStepY` are computed but never used, so they are not modelled.
- IEEE-754 rounding is not modelled. The arithmetic is over exact reals. `disc === 0` is exact equality on reals.
- a = 0 is excluded by `requires q.a != 0.0`. The slider allows it, and the page then divides by zero and draws NaN or Infinity. That is not modelled.
- A canvas width of 0 is excluded. The canvases are fixed at 600 and 800 pixels.
- Math.sqrt is a parameter constrained by `SqrtOfDisc`, not code.
- The read-outs are not modelled: vertex, axis, opening direction, discriminant, roots text and f(xEval). The opening direction is the sign test a > 0 (upward, else downward); every other read-out shows one of the memos above. Only `toFixed` formatting and the text around the values are left out.
- `parseFloat` input parsing and the slider and number inputs are not modelled.
- The download plumbing (Blob, object URL, anchor click) is not modelled.
- From the export, the HTML and CSS text, `JSON.stringify` of the bank, the footer date, and the DOM building and event wiring are not modelled.
- The question and option texts and the explanations are not modelled. Each question keeps only its id, its option count and its answer index.
- Export.Draw: the export's draw routine issues its drawing calls through the same method as the live routine (`Render.DrawPicture` and its loops `DrawColumns`, `DrawRows`, `DrawCurve`, `DrawKeyPoints`). Its independence lies in taking the vertex and roots from `info()` and its own labels and canvas, not in a second copy of each loop.
- Export.ExportQuiz.Choose: the radio button's own checked state lives in the DOM and is not modelled. Only `state.answers` is.
