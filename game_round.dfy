/**
 * One game round: a fixed list of questions, a 30-second countdown per question, and a
 * score that rewards streaks of correct answers.
 */
module GameRound {
  import opened Wrappers
  import opened QuizTypes

  /** Seconds on the clock when a question is shown. */
  const SecondsPerQuestion := 30
  /** Points for any correct answer, before the streak bonus. */
  const BasePoints := 10
  /** Extra points per answer already in the current streak. */
  const StreakBonus := 2

  /** `answerIndex === question.resposta_correta`; a time-out (no index) is never correct. */
  predicate IsCorrect(q: Question, answer: Option<int>): (ok: bool)
    ensures ok ==> answer.Some? && q.resposta_correta.Num? && q.resposta_correta.n == answer.value
    ensures !q.resposta_correta.Num? ==> !ok
  {
    answer.Some? && q.resposta_correta == Num(answer.value)
  }

  // ---------------------------------------------------------------- scoring

  datatype Tally = Tally(score: nat, streak: nat)

  const Start := Tally(0, 0)

  /** The score and streak after one more answer. */
  function Award(t: Tally, correct: bool): (r: Tally)
    ensures correct ==> r.streak == t.streak + 1 && r.score - t.score == BasePoints + StreakBonus * t.streak
    ensures !correct ==> r.streak == 0 && r.score == t.score
  {
    if correct then Tally(t.score + BasePoints + StreakBonus * t.streak, t.streak + 1)
    else Tally(t.score, 0)
  }

  /** The tally after a sequence of answers, oldest first. */
  function Replay(t: Tally, outcomes: seq<bool>): Tally {
    if outcomes == [] then t
    else Award(Replay(t, outcomes[..|outcomes| - 1]), outcomes[|outcomes| - 1])
  }

  /** The number of correct answers at the end of the sequence, since the last miss. */
  function TrailingCorrect(outcomes: seq<bool>): (n: nat)
    ensures n <= |outcomes|
    ensures forall i :: |outcomes| - n <= i < |outcomes| ==> outcomes[i]
    ensures n < |outcomes| ==> !outcomes[|outcomes| - n - 1]
  {
    if outcomes == [] || !outcomes[|outcomes| - 1] then 0
    else TrailingCorrect(outcomes[..|outcomes| - 1]) + 1
  }

  lemma ReplayAppend(t: Tally, outcomes: seq<bool>, b: bool)
    ensures Replay(t, outcomes + [b]) == Award(Replay(t, outcomes), b)
  {
    assert (outcomes + [b])[..|outcomes|] == outcomes;
  }

  /** The streak of a round is the run of correct answers since the last miss. */
  lemma {:induction false} StreakIsTrailingRun(outcomes: seq<bool>)
    ensures Replay(Start, outcomes).streak == TrailingCorrect(outcomes)
  {
    if outcomes != [] {
      StreakIsTrailingRun(outcomes[..|outcomes| - 1]);
    }
  }

  /** The score never decreases as answers come in. */
  lemma {:induction false} ScoreNeverDecreases(t: Tally, outcomes: seq<bool>)
    ensures Replay(t, outcomes).score >= t.score
  {
    if outcomes != [] {
      ScoreNeverDecreases(t, outcomes[..|outcomes| - 1]);
    }
  }

  /** With n answers from tally t, the score rises by at most what n correct answers in a row earn. */
  lemma {:induction false} ScoreBound(t: Tally, outcomes: seq<bool>)
    ensures Replay(t, outcomes).streak <= t.streak + |outcomes|
    ensures Replay(t, outcomes).score
              <= t.score + 10 * |outcomes| + 2 * t.streak * |outcomes| + |outcomes| * (|outcomes| - 1)
  {
    if outcomes != [] {
      var n := |outcomes| - 1;
      ScoreBound(t, outcomes[..n]);
      var p := Replay(t, outcomes[..n]);
      assert p.score + 10 + 2 * p.streak <= t.score + 10 * n + 2 * t.streak * n + n * (n - 1) + 10 + 2 * (t.streak + n);
      assert 10 * n + 2 * t.streak * n + n * (n - 1) + 10 + 2 * (t.streak + n)
             == 10 * (n + 1) + 2 * t.streak * (n + 1) + (n + 1) * n;
    }
  }

  /** k correct answers in a row from a tally with streak s earn 10k + 2sk + k(k-1) points. */
  lemma {:induction false} CorrectRunScore(t: Tally, k: nat)
    ensures Replay(t, seq(k, _ => true)) == Tally(t.score + 10 * k + 2 * t.streak * k + k * (k - 1), t.streak + k)
  {
    if k > 0 {
      var run := seq(k, _ => true);
      assert run[..k - 1] == seq(k - 1, _ => true);
      CorrectRunScore(t, k - 1);
      assert 10 * (k - 1) + 2 * t.streak * (k - 1) + (k - 1) * (k - 2) + 10 + 2 * (t.streak + k - 1)
             == 10 * k + 2 * t.streak * k + k * (k - 1);
    }
  }

  /** A round of n answers scores at most n² + 9n, reached exactly when every answer is correct. */
  lemma PerfectRoundScore(outcomes: seq<bool>)
    ensures Replay(Start, outcomes).score <= |outcomes| * |outcomes| + 9 * |outcomes|
    ensures (forall i :: 0 <= i < |outcomes| ==> outcomes[i]) ==>
              Replay(Start, outcomes).score == |outcomes| * |outcomes| + 9 * |outcomes|
  {
    var n := |outcomes|;
    assert Start.score == 0 && Start.streak == 0;
    assert 10 * n + 2 * 0 * n + n * (n - 1) == n * n + 9 * n;
    ScoreBound(Start, outcomes);
    if forall i :: 0 <= i < n ==> outcomes[i] {
      assert outcomes == seq(n, _ => true);
      CorrectRunScore(Start, n);
    }
  }

  // ---------------------------------------------------------------- timer colour

  datatype Color = Success | Gold | Error

  /** The countdown ring's colour: green above 20 s, gold above 10 s, red otherwise. */
  function ProgressColor(timeLeft: int): (c: Color)
    ensures c == Success <==> timeLeft > 20
    ensures c == Error <==> timeLeft <= 10
  {
    if timeLeft > 20 then Success else if timeLeft > 10 then Gold else Error
  }

  function Urgency(c: Color): nat {
    match c
    case Success => 0
    case Gold => 1
    case Error => 2
  }

  /** The colour only ever moves towards red as the clock runs down. */
  lemma ColorMonotone(t1: int, t2: int)
    requires t1 <= t2
    ensures Urgency(ProgressColor(t1)) >= Urgency(ProgressColor(t2))
  {
  }

  // ---------------------------------------------------------------- the screen

  class Round {
    const questions: seq<Question>
    var currentQuestion: nat
    var score: nat
    var streak: nat
    var timeLeft: int
    var answered: bool
    var selectedAnswer: Option<int>
    var showExplanation: bool
    /** The 500 ms timeout that reveals the explanation has been scheduled and not yet fired. */
    var revealPending: bool
    /** Whether each answer given so far was correct, oldest first. */
    ghost var outcomes: seq<bool>

    ghost predicate Valid()
      reads this
    {
      && currentQuestion < |questions|
      && 0 <= timeLeft <= SecondsPerQuestion
      && (timeLeft == 0 ==> answered)
      && |outcomes| == currentQuestion + (if answered then 1 else 0)
      && Tally(score, streak) == Replay(Start, outcomes)
      && (revealPending ==> answered && !showExplanation)
      && (showExplanation ==> answered)
      && (!answered ==> selectedAnswer == None && !revealPending)
    }

    function Current(): Question
      reads this
      requires Valid()
    {
      questions[currentQuestion]
    }

    constructor (questions: seq<Question>)
      requires |questions| > 0
      ensures Valid() && this.questions == questions
      ensures currentQuestion == 0 && score == 0 && streak == 0 && timeLeft == SecondsPerQuestion
      ensures !answered && selectedAnswer == None && !showExplanation && outcomes == []
    {
      this.questions := questions;
      currentQuestion := 0;
      score := 0;
      streak := 0;
      timeLeft := SecondsPerQuestion;
      answered := false;
      selectedAnswer := None;
      showExplanation := false;
      revealPending := false;
      outcomes := [];
    }

    /** `handleAnswer`: the first answer to a question is scored; later ones are ignored. */
    method HandleAnswer(answer: Option<int>)
      requires Valid()
      modifies this
      ensures Valid()
      ensures currentQuestion == old(currentQuestion) && timeLeft == old(timeLeft)
      ensures showExplanation == old(showExplanation)
      ensures old(answered) ==>
                score == old(score) && streak == old(streak) && selectedAnswer == old(selectedAnswer)
                && revealPending == old(revealPending) && outcomes == old(outcomes)
      ensures !old(answered) ==>
                && answered && selectedAnswer == answer && revealPending
                && Tally(score, streak) == Award(old(Tally(score, streak)), IsCorrect(old(Current()), answer))
                && outcomes == old(outcomes) + [IsCorrect(old(Current()), answer)]
      ensures answered
    {
      if answered {
        return;
      }
      answered := true;
      selectedAnswer := answer;
      var isCorrect := answer.Some? && questions[currentQuestion].resposta_correta == Num(answer.value);
      if isCorrect {
        score := score + BasePoints + StreakBonus * streak;
        streak := streak + 1;
      } else {
        streak := 0;
      }
      ReplayAppend(Start, outcomes, isCorrect);
      outcomes := outcomes + [isCorrect];
      revealPending := true;
    }

    /** One second of the countdown interval; it runs only while the question is open. */
    method Tick()
      requires Valid()
      modifies this
      ensures Valid() && currentQuestion == old(currentQuestion)
      ensures old(answered) ==>
                timeLeft == old(timeLeft) && score == old(score) && streak == old(streak)
                && answered && outcomes == old(outcomes)
                && selectedAnswer == old(selectedAnswer) && revealPending == old(revealPending)
      ensures !old(answered) && old(timeLeft) > 1 ==>
                timeLeft == old(timeLeft) - 1 && !answered && outcomes == old(outcomes)
                && score == old(score) && streak == old(streak)
                && selectedAnswer == old(selectedAnswer) && revealPending == old(revealPending)
      ensures !old(answered) && old(timeLeft) <= 1 ==>
                && timeLeft == 0 && answered && selectedAnswer == None && revealPending
                && score == old(score) && streak == 0 && outcomes == old(outcomes) + [false]
      ensures showExplanation == old(showExplanation)
    {
      if answered || timeLeft == 0 {
        return;
      }
      if timeLeft <= 1 {
        HandleAnswer(None);
        timeLeft := 0;
      } else {
        timeLeft := timeLeft - 1;
      }
    }

    /** The scheduled timeout fires and the explanation appears. */
    method RevealExplanation()
      requires Valid()
      modifies this
      ensures Valid()
      ensures showExplanation == (old(showExplanation) || old(revealPending)) && !revealPending
      ensures currentQuestion == old(currentQuestion) && answered == old(answered)
      ensures timeLeft == old(timeLeft) && score == old(score) && streak == old(streak)
      ensures outcomes == old(outcomes) && selectedAnswer == old(selectedAnswer)
    {
      if revealPending {
        showExplanation := true;
        revealPending := false;
      }
    }

    /**
     * `handleNext`, offered only once the explanation is shown: the next question with a
     * fresh clock, or `finished` after the last one (the screen then navigates back).
     */
    method HandleNext() returns (finished: bool)
      requires Valid() && showExplanation
      modifies this
      ensures Valid()
      ensures finished <==> old(currentQuestion) == |questions| - 1
      ensures finished ==>
                currentQuestion == old(currentQuestion) && answered && showExplanation
                && timeLeft == old(timeLeft) && selectedAnswer == old(selectedAnswer)
                && revealPending == old(revealPending)
      ensures !finished ==>
                && currentQuestion == old(currentQuestion) + 1
                && !answered && selectedAnswer == None && !showExplanation && !revealPending
                && timeLeft == SecondsPerQuestion
      ensures score == old(score) && streak == old(streak) && outcomes == old(outcomes)
    {
      if currentQuestion < |questions| - 1 {
        currentQuestion := currentQuestion + 1;
        answered := false;
        selectedAnswer := None;
        showExplanation := false;
        revealPending := false;
        timeLeft := SecondsPerQuestion;
        finished := false;
      } else {
        finished := true;
      }
    }

    /** The colour of the countdown ring. */
    function GetProgressColor(): (c: Color)
      reads this
      ensures c == Success <==> timeLeft > 20
      ensures c == Error <==> timeLeft <= 10
      ensures timeLeft == SecondsPerQuestion ==> c == Success
    {
      ProgressColor(timeLeft)
    }

    /** The round's score never exceeds what answering everything so far correctly would earn. */
    lemma ScoreWithinPerfect()
      requires Valid()
      ensures score <= |outcomes| * |outcomes| + 9 * |outcomes|
      ensures |outcomes| <= |questions|
      ensures streak == TrailingCorrect(outcomes)
    {
      PerfectRoundScore(outcomes);
      StreakIsTrailingRun(outcomes);
    }
  }
}
