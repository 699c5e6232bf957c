/** The standalone page the download button produces. Its script is a
    second, hand-written copy of the engine: `info()` recomputes the
    discriminant, vertex and roots, `draw()` repeats the draw routine on an
    800 by 360 canvas with shorter labels, and the quiz keeps its own
    mutable `state.answers`. The model shows that this copy agrees with the
    live page. */
module Export {
  import opened Quadratic
  import opened ViewWindow
  import opened Render
  import Quiz

  /** The exported page's canvas. */
  const ExportWidth: nat := 800
  const ExportHeight: nat := 360

  const ExportLabels := Labels("Vertex", "x1", "x2", "y-int")

  /** What `info()` returns. */
  datatype Info = Info(d: real, xv: real, yv: real, roots: seq<real>)

  /** `info()`: the same formulas, with the root branches checked in the
      other order (D > 0 first, then D = 0, else no root). */
  function ComputeInfo(q: Coefficients, sqrtD: real): Info
    requires q.a != 0.0
    requires SqrtOfDisc(q, sqrtD)
  {
    var d := q.b * q.b - 4.0 * q.a * q.c;
    var xv := -q.b / (2.0 * q.a);
    var yv := q.a * xv * xv + q.b * xv + q.c;
    var roots :=
      if d > 0.0 then [(-q.b - sqrtD) / (2.0 * q.a), (-q.b + sqrtD) / (2.0 * q.a)]
      else if d == 0.0 then [-q.b / (2.0 * q.a)]
      else [];
    Info(d, xv, yv, roots)
  }

  /** `info()` gives the live discriminant, vertex and ordered root list. */
  lemma InfoAgrees(q: Coefficients, sqrtD: real)
    requires q.a != 0.0
    requires SqrtOfDisc(q, sqrtD)
    ensures ComputeInfo(q, sqrtD)
      == Info(Discriminant(q), Vertex(q).x, Vertex(q).y, Roots(q, sqrtD))
  {
  }

  /** The export's label for the text a live marker carries. */
  function ExportText(t: string): string
  {
    if t == LiveLabels.first then ExportLabels.first
    else if t == LiveLabels.second then ExportLabels.second
    else if t == LiveLabels.intercept then ExportLabels.intercept
    else t
  }

  function Relabel(c: Cmd): Cmd
  {
    if c.Dot? then c.(text := ExportText(c.text)) else c
  }

  function RelabelAll(cs: seq<Cmd>): seq<Cmd>
  {
    seq(|cs|, k requires 0 <= k < |cs| => Relabel(cs[k]))
  }

  /** On a canvas of the same size, the export draws exactly what the live
      page draws, with x₁, x₂ and y-intercept written x1, x2 and y-int. */
  lemma ExportDrawsLivePicture(q: Coefficients, sqrtD: real, w: nat, h: nat)
    requires q.a != 0.0 && SqrtOfDisc(q, sqrtD) && w > 0
    ensures Scene(q, sqrtD, w, h, ExportLabels) == RelabelAll(Scene(q, sqrtD, w, h, LiveLabels))
  {
    WindowWellFormed(q);
    var v := Window(q);
    var vertex := Vertex(q);
    var roots := Roots(q, sqrtD);
    var prefix := [Clear, Background] + Columns(v, w, h) + Rows(v, w, h) + Axes(v, w, h) + Curve(q, v, w, h);
    var live := Dots(v, w, h, KeyPoints(vertex.x, vertex.y, roots, q.c, LiveLabels));
    var exported := Dots(v, w, h, KeyPoints(vertex.x, vertex.y, roots, q.c, ExportLabels));
    assert Scene(q, sqrtD, w, h, LiveLabels) == Picture(q, v, w, h, KeyPoints(vertex.x, vertex.y, roots, q.c, LiveLabels)) == prefix + live;
    assert Scene(q, sqrtD, w, h, ExportLabels) == Picture(q, v, w, h, KeyPoints(vertex.x, vertex.y, roots, q.c, ExportLabels)) == prefix + exported;
    NoMarkersBeforeDots(q, v, w, h);
    DotsRelabelled(v, w, h, vertex.x, vertex.y, roots, q.c);
    RelabelAfterPlainPrefix(prefix, live);
  }

  lemma NoMarkersBeforeDots(q: Coefficients, v: Viewport, w: nat, h: nat)
    requires WellFormed(v) && w > 0
    ensures var p := [Clear, Background] + Columns(v, w, h) + Rows(v, w, h) + Axes(v, w, h) + Curve(q, v, w, h);
      forall k :: 0 <= k < |p| ==> !p[k].Dot?
  {
  }

  lemma RelabelAfterPlainPrefix(p: seq<Cmd>, d: seq<Cmd>)
    requires forall k :: 0 <= k < |p| ==> !p[k].Dot?
    ensures RelabelAll(p + d) == p + RelabelAll(d)
  {
  }

  /** The markers carry the export labels in place of the live ones. */
  lemma DotsRelabelled(v: Viewport, w: nat, h: nat, vx: real, vy: real, roots: seq<real>, c: real)
    requires WellFormed(v)
    ensures Dots(v, w, h, KeyPoints(vx, vy, roots, c, ExportLabels))
         == RelabelAll(Dots(v, w, h, KeyPoints(vx, vy, roots, c, LiveLabels)))
  {
  }

  /** One run of the export's `draw()` on its 800 by 360 canvas: the window
      and the key points come from `info()` rather than from the live memos. */
  method Draw(q: Coefficients, sqrtD: real) returns (cmds: seq<Cmd>)
    requires q.a != 0.0 && SqrtOfDisc(q, sqrtD)
    ensures cmds == Scene(q, sqrtD, ExportWidth, ExportHeight, ExportLabels)
  {
    var w := ExportWidth;
    var h := ExportHeight;
    var iv := ComputeInfo(q, sqrtD);
    InfoAgrees(q, sqrtD);
    var v := ComputeWindow(q, iv.xv);
    WindowWellFormed(q);
    cmds := DrawPicture(q, v, w, h, iv.xv, iv.yv, iv.roots, q.c, ExportLabels);
  }

  /** The export's score `reduce`: adds 1 or 0 per question. */
  function ScoreFrom(qs: seq<Quiz.Question>, answers: map<int, nat>, acc: int): int
    decreases |qs|
  {
    if |qs| == 0 then acc
    else ScoreFrom(qs[1..], answers, acc + (if Quiz.IsCorrect(answers, qs[0]) then 1 else 0))
  }

  /** Both reduces compute the same total from any starting value. */
  lemma {:induction false} ScoreAgrees(qs: seq<Quiz.Question>, answers: map<int, nat>, acc: int)
    ensures ScoreFrom(qs, answers, acc) == Quiz.ScoreFrom(qs, answers, acc)
    decreases |qs|
  {
    if |qs| > 0 {
      ScoreAgrees(qs[1..], answers, acc + (if Quiz.IsCorrect(answers, qs[0]) then 1 else 0));
    }
  }

  /** The quiz of the exported page, whose handlers update one state object
      in place. Each question has an explanation line, blank until checked;
      `score` is the text of the score line, blank (None) until checked. */
  class ExportQuiz {
    const questions: seq<Quiz.Question>
    var answers: map<int, nat>
    /** Declared alongside the answers but never written by any handler. */
    var submitted: bool
    var explain: seq<Quiz.Verdict>
    var score: Quiz.Option<int>

    /** One explanation line per question. */
    predicate Valid()
      reads this
    {
      |explain| == |questions|
    }

    /** The page as loaded: nothing chosen, nothing shown. */
    constructor(qs: seq<Quiz.Question>)
      ensures Valid()
      ensures questions == qs && answers == map[] && !submitted
      ensures explain == seq(|qs|, _ => Quiz.Hidden) && score == Quiz.None
    {
      questions := qs;
      answers := map[];
      submitted := false;
      explain := seq(|qs|, _ => Quiz.Hidden);
      score := Quiz.None;
    }

    /** The `change` handler of option i of question q. */
    method Choose(q: Quiz.Question, i: nat)
      requires Valid()
      modifies this
      ensures Valid()
      ensures answers == old(answers)[q.id := i]
      ensures submitted == old(submitted) && explain == old(explain) && score == old(score)
    {
      answers := answers[q.id := i];
    }

    /** The Check button: writes each question's verdict in bank order and
      then the score, exactly as the live page shows them after checking. */
    method CheckAnswers()
      requires Valid()
      modifies this
      ensures Valid()
      ensures answers == old(answers) && submitted == old(submitted)
      ensures forall k :: 0 <= k < |questions| ==>
        explain[k] == Quiz.Feedback(Quiz.Check(Quiz.QuizState(answers, submitted)), questions[k])
      ensures score == Quiz.ScoreLine(questions, Quiz.Check(Quiz.QuizState(answers, submitted)))
    {
      var idx := 0;
      while idx < |explain|
        invariant Valid()
        invariant 0 <= idx <= |explain|
        invariant answers == old(answers) && submitted == old(submitted)
        invariant forall k :: 0 <= k < idx ==>
          explain[k] == Quiz.Feedback(Quiz.Check(Quiz.QuizState(answers, submitted)), questions[k])
      {
        var q := questions[idx];
        if q.id in answers && answers[q.id] == q.answer {
          explain := explain[idx := Quiz.Right];
        } else {
          explain := explain[idx := Quiz.NotQuite];
        }
        idx := idx + 1;
      }
      var s := ScoreFrom(questions, answers, 0);
      ScoreAgrees(questions, answers, 0);
      score := Quiz.Some(s);
    }

    /** The Reset button: forgets the choices and blanks every line. */
    method Reset()
      requires Valid()
      modifies this
      ensures Valid()
      ensures answers == map[] && submitted == old(submitted)
      ensures explain == seq(|questions|, _ => Quiz.Hidden) && score == Quiz.None
    {
      answers := map[];
      score := Quiz.None;
      explain := seq(|questions|, _ => Quiz.Hidden);
    }
  }
}
