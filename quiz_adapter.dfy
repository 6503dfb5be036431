/**
 * The schema adapter: a pure, total mapping from a remote quiz to a legacy question,
 * one branch per quiz kind plus a placeholder branch for everything else.
 */
module QuizAdapter {
  import opened Wrappers
  import opened QuizTypes

  /** The three placeholder options of the fallback branch. */
  const Placeholders: seq<QuestionOption> := [
    QuestionOption("Opção 1", None, None),
    QuestionOption("Opção 2", None, None),
    QuestionOption("Opção 3", None, None)
  ]

  /** Each string option wrapped as `{ texto }`, in order. */
  function WrapOptions(opcoes: seq<string>): (r: seq<QuestionOption>)
    ensures |r| == |opcoes|
    ensures forall i :: 0 <= i < |r| ==> r[i] == QuestionOption(opcoes[i], None, None)
  {
    seq(|opcoes|, i requires 0 <= i < |opcoes| => QuestionOption(opcoes[i], None, None))
  }

  /** True when the quiz takes the multiple-choice branch: the tag and an array of options. */
  predicate IsMultipleChoice(quiz: Quiz) {
    quiz.tipo == MultiplaEscolha && quiz.opcoes.Some?
  }

  /**
   * `QuizAdapter.quizToQuestion`. Whatever the kind, the identity fields are carried
   * over and, outside the multiple-choice branch, the answer index addresses an option.
   */
  function QuizToQuestion(quiz: Quiz): (r: Question)
    ensures r.id == IdToString(quiz.id)
    ensures r.categoria == quiz.categoria && r.pergunta == quiz.pergunta
    ensures r.explicacao == quiz.explicacao.GetOr("")
    ensures |r.opcoes| >= 1 || IsMultipleChoice(quiz)
    ensures !IsMultipleChoice(quiz) ==>
              exists k :: 0 <= k < |r.opcoes| && r.resposta_correta == Num(k)
  {
    var (opcoes, resposta, tipo) :=
      if IsMultipleChoice(quiz) then
        (WrapOptions(quiz.opcoes.value), quiz.resposta_correta, Text)
      else if quiz.tipo == VerdadeiroFalso then
        ([QuestionOption("Verdadeiro", None, None), QuestionOption("Falso", None, None)],
         Num(if quiz.resposta_correta == Bool(true) then 0 else 1), Text)
      else if quiz.tipo == ImagemParaTexto then
        ([QuestionOption(AnswerToString(quiz.resposta_correta), quiz.imagem, None)], Num(0), Image)
      else if quiz.tipo == CompletarFrase then
        ([QuestionOption(AnswerToString(quiz.resposta_correta), None, None)], Num(0), Text)
      else
        (Placeholders, Num(0), Text);
    Question(IdToString(quiz.id), quiz.categoria, tipo, quiz.pergunta, opcoes, resposta,
             quiz.explicacao.GetOr(""))
  }

  /** `QuizAdapter.quizzesToQuestions`: the adapter applied to each quiz, in order. */
  function QuizzesToQuestions(quizzes: seq<Quiz>): (r: seq<Question>)
    ensures |r| == |quizzes|
    ensures forall i :: 0 <= i < |quizzes| ==> r[i] == QuizToQuestion(quizzes[i])
  {
    if quizzes == [] then [] else [QuizToQuestion(quizzes[0])] + QuizzesToQuestions(quizzes[1..])
  }

  /** Multiple choice with an array of options: same options in the same order, answer unchanged. */
  lemma MultipleChoiceKeepsOptions(quiz: Quiz)
    requires quiz.tipo == MultiplaEscolha && quiz.opcoes.Some?
    ensures var r := QuizToQuestion(quiz);
            && |r.opcoes| == |quiz.opcoes.value|
            && (forall i :: 0 <= i < |r.opcoes| ==> r.opcoes[i].texto == quiz.opcoes.value[i])
            && r.resposta_correta == quiz.resposta_correta
            && r.tipo == Text
  {
  }

  /** A valid multiple-choice index still names the same option text after adaptation. */
  lemma MultipleChoiceAnswerText(quiz: Quiz, k: int)
    requires quiz.tipo == MultiplaEscolha && quiz.opcoes.Some?
    requires quiz.resposta_correta == Num(k) && 0 <= k < |quiz.opcoes.value|
    ensures var r := QuizToQuestion(quiz);
            && r.resposta_correta == Num(k) && 0 <= k < |r.opcoes|
            && r.opcoes[k].texto == quiz.opcoes.value[k]
  {
  }

  /** True/false: exactly "Verdadeiro" then "Falso"; index 0 iff the key is the boolean `true`. */
  lemma TrueFalseMapping(quiz: Quiz)
    requires quiz.tipo == VerdadeiroFalso
    ensures var r := QuizToQuestion(quiz);
            && |r.opcoes| == 2
            && r.opcoes[0].texto == "Verdadeiro" && r.opcoes[1].texto == "Falso"
            && (r.resposta_correta == Num(0) <==> quiz.resposta_correta == Bool(true))
            && (r.resposta_correta == Num(0) || r.resposta_correta == Num(1))
            && r.tipo == Text
  {
  }

  /** Image to text: one option carrying the stringified answer and the quiz image. */
  lemma ImageToTextMapping(quiz: Quiz)
    requires quiz.tipo == ImagemParaTexto
    ensures var r := QuizToQuestion(quiz);
            && r.opcoes == [QuestionOption(AnswerToString(quiz.resposta_correta), quiz.imagem, None)]
            && r.resposta_correta == Num(0) && r.tipo == Image
  {
  }

  /** Complete the sentence: one option carrying the stringified answer. */
  lemma CompleteSentenceMapping(quiz: Quiz)
    requires quiz.tipo == CompletarFrase
    ensures var r := QuizToQuestion(quiz);
            && r.opcoes == [QuestionOption(AnswerToString(quiz.resposta_correta), None, None)]
            && r.resposta_correta == Num(0) && r.tipo == Text
  {
  }

  /**
   * Every other tag, and a multiple-choice quiz without an array of options, degrade to the
   * three placeholders with index 0.
   */
  lemma FallbackMapping(quiz: Quiz)
    requires quiz.tipo !in {VerdadeiroFalso, ImagemParaTexto, CompletarFrase}
    requires !IsMultipleChoice(quiz)
    ensures var r := QuizToQuestion(quiz);
            && |r.opcoes| == 3
            && r.opcoes[0].texto == "Opção 1" && r.opcoes[1].texto == "Opção 2"
            && r.opcoes[2].texto == "Opção 3"
            && r.resposta_correta == Num(0) && r.tipo == Text
  {
  }

  /** Adapting a concatenation adapts each part: the list adapter preserves order. */
  lemma {:induction false} QuizzesToQuestionsAppend(a: seq<Quiz>, b: seq<Quiz>)
    ensures QuizzesToQuestions(a + b) == QuizzesToQuestions(a) + QuizzesToQuestions(b)
  {
    if a != [] {
      assert (a + b)[0] == a[0] && (a + b)[1..] == a[1..] + b;
      QuizzesToQuestionsAppend(a[1..], b);
    } else {
      assert a + b == b;
    }
  }
}
