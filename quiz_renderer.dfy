/**
 * The dynamic quiz renderer: chooses a view by quiz kind and judges one answer. Its
 * handlers submit at most once: after the first submission, or while disabled, they do nothing.
 */
module QuizRenderer {
  import opened Wrappers
  import opened QuizTypes

  // ---------------------------------------------------------------- text normalisation

  /** The characters `String.prototype.trim` removes (white space and line terminators). */
  predicate IsWhitespace(c: char) {
    || c == ' ' || c == '\t' || c == '\n' || c == '\r' || c == '\U{000B}' || c == '\U{000C}'
    || c == '\U{00A0}' || c == '\U{1680}' || ('\U{2000}' <= c <= '\U{200A}') || c == '\U{2028}'
    || c == '\U{2029}' || c == '\U{202F}' || c == '\U{205F}' || c == '\U{3000}' || c == '\U{FEFF}'
  }

  predicate AllWhitespace(s: string) {
    forall i :: 0 <= i < |s| ==> IsWhitespace(s[i])
  }

  /** `s` without its leading white space. */
  function TrimStart(s: string): (r: string)
    ensures |r| <= |s| && r == s[|s| - |r|..]
    ensures AllWhitespace(s[..|s| - |r|])
    ensures r == [] || !IsWhitespace(r[0])
  {
    if s != [] && IsWhitespace(s[0]) then
      var r := TrimStart(s[1..]);
      assert s[..|s| - |r|] == [s[0]] + s[1..][..|s[1..]| - |r|];
      r
    else s
  }

  /** `s` without its trailing white space. */
  function TrimEnd(s: string): (r: string)
    ensures |r| <= |s| && r == s[..|r|]
    ensures AllWhitespace(s[|r|..])
    ensures r == [] || !IsWhitespace(r[|r| - 1])
  {
    if s != [] && IsWhitespace(s[|s| - 1]) then
      var r := TrimEnd(s[..|s| - 1]);
      assert s[|r|..] == s[..|s| - 1][|r|..] + [s[|s| - 1]];
      r
    else s
  }

  /** `String.prototype.trim`. */
  function Trim(s: string): string {
    TrimEnd(TrimStart(s))
  }

  /** Lower-case mapping of ASCII and Latin-1 capitals (the letters of Portuguese answers). */
  function LowerChar(c: char): (d: char) {
    if 'A' <= c <= 'Z' || ('\U{00C0}' <= c <= '\U{00DE}' && c != '\U{00D7}') then (c as int + 32) as char else c
  }

  /** `String.prototype.toLowerCase`, character by character. */
  function ToLower(s: string): (r: string)
    ensures |r| == |s| && forall i :: 0 <= i < |s| ==> r[i] == LowerChar(s[i])
  {
    seq(|s|, i requires 0 <= i < |s| => LowerChar(s[i]))
  }

  /** `s.trim().toLowerCase()`. */
  function Normalize(s: string): (r: string)
    ensures |r| == |Trim(s)| <= |s|
    ensures r == [] || (!IsWhitespace(r[0]) && !IsWhitespace(r[|r| - 1]))
    ensures forall i :: 0 <= i < |r| ==> r[i] == LowerChar(Trim(s)[i])
  {
    ToLower(Trim(s))
  }

  // ---------------------------------------------------------------- answer checks

  /** `index === quiz.resposta_correta`. */
  predicate MultipleChoiceCorrect(quiz: Quiz, index: int): (ok: bool)
    ensures !quiz.resposta_correta.Num? ==> !ok
    ensures ok ==> quiz.resposta_correta.n == index
  {
    quiz.resposta_correta == Num(index)
  }

  /** `value === quiz.resposta_correta`: only a boolean key can match. */
  predicate TrueFalseCorrect(quiz: Quiz, value: bool): (ok: bool)
    ensures !quiz.resposta_correta.Bool? ==> !ok
    ensures quiz.resposta_correta.Bool? ==> (ok <==> value == quiz.resposta_correta.b)
  {
    quiz.resposta_correta == Bool(value)
  }

  /** The typed answer matches `String(resposta_correta)`, trimmed and lower-cased on both sides. */
  predicate TextCorrect(quiz: Quiz, answer: string): (ok: bool)
    ensures ok ==> |Trim(answer)| == |Trim(AnswerToString(quiz.resposta_correta))|
    ensures Trim(answer) == Trim(AnswerToString(quiz.resposta_correta)) ==> ok
  {
    Normalize(answer) == Normalize(AnswerToString(quiz.resposta_correta))
  }

  /** A text answer is submitted only if something is left after trimming. */
  predicate IsBlank(answer: string) {
    Trim(answer) == ""
  }

  // ---------------------------------------------------------------- dispatch

  /** The child view chosen for a quiz. */
  datatype View =
    | MultipleChoiceView(opcoes: seq<string>)
    | TrueFalseView
    | ImageTextView(imagem: string)
    | CompleteSentenceView
    | NoView

  /** The `switch` on `tipo`; an unknown kind shows its options as multiple choice, if it has any. */
  function Render(quiz: Quiz): (v: View)
    ensures quiz.tipo == MultiplaEscolha ==> v == MultipleChoiceView(quiz.opcoes.GetOr([]))
    ensures quiz.tipo == VerdadeiroFalso ==> v == TrueFalseView
    ensures quiz.tipo == ImagemParaTexto ==> v == ImageTextView(quiz.imagem.GetOr(""))
    ensures quiz.tipo == CompletarFrase ==> v == CompleteSentenceView
    ensures v == NoView <==> quiz.tipo !in {MultiplaEscolha, VerdadeiroFalso, ImagemParaTexto, CompletarFrase}
                              && quiz.opcoes.None?
    ensures quiz.tipo !in {MultiplaEscolha, VerdadeiroFalso, ImagemParaTexto, CompletarFrase} && quiz.opcoes.Some? ==>
              v == MultipleChoiceView(quiz.opcoes.value)
  {
    match quiz.tipo
    case MultiplaEscolha => MultipleChoiceView(quiz.opcoes.GetOr([]))
    case VerdadeiroFalso => TrueFalseView
    case ImagemParaTexto => ImageTextView(quiz.imagem.GetOr(""))
    case CompletarFrase => CompleteSentenceView
    case _ => if quiz.opcoes.Some? then MultipleChoiceView(quiz.opcoes.value) else NoView
  }

  // ---------------------------------------------------------------- properties

  /** A non-boolean key never matches either true/false answer. */
  lemma TrueFalseNeedsBooleanKey(quiz: Quiz, value: bool)
    requires !quiz.resposta_correta.Bool?
    ensures !TrueFalseCorrect(quiz, value)
  {
  }

  /** A multiple-choice answer is correct for exactly one index when the key is a number, else for none. */
  lemma MultipleChoiceUniqueIndex(quiz: Quiz, i: int, j: int)
    requires MultipleChoiceCorrect(quiz, i) && MultipleChoiceCorrect(quiz, j)
    ensures i == j
  {
  }

  /** Trimming removes everything when the text is all white space, and only then. */
  lemma {:induction false} TrimEmptyIffWhitespace(s: string)
    ensures Trim(s) == "" <==> AllWhitespace(s)
  {
    var t := TrimStart(s);
    if t != [] {
      assert t[0] == s[|s| - |t|];
    }
    if Trim(s) == "" {
      assert AllWhitespace(t);
      assert s == s[..|s| - |t|] + t;
    }
  }

  /** Leading white space does not change the start-trimmed text. */
  lemma {:induction false} TrimStartAppend(a: string, b: string)
    ensures TrimStart(a + b) == if AllWhitespace(a) then TrimStart(b) else TrimStart(a) + b
  {
    if a != [] {
      assert (a + b)[0] == a[0] && (a + b)[1..] == a[1..] + b;
      if IsWhitespace(a[0]) {
        TrimStartAppend(a[1..], b);
        if AllWhitespace(a[1..]) {
          assert AllWhitespace(a);
        } else {
          assert !AllWhitespace(a);
        }
      }
    } else {
      assert a + b == b;
    }
  }

  /** Trailing white space does not change the end-trimmed text. */
  lemma {:induction false} TrimEndSkipsTrailing(a: string, w: string)
    requires AllWhitespace(w)
    ensures TrimEnd(a + w) == TrimEnd(a)
  {
    if w != [] {
      var a' := a + w[..|w| - 1];
      assert a + w == a' + [w[|w| - 1]];
      assert (a + w)[..|a + w| - 1] == a';
      TrimEndSkipsTrailing(a, w[..|w| - 1]);
    } else {
      assert a + w == a;
    }
  }

  /** Padding an answer with white space on either side does not change its trimmed form. */
  lemma PaddingIgnored(w1: string, a: string, w2: string)
    requires AllWhitespace(w1) && AllWhitespace(w2)
    ensures Trim(w1 + a + w2) == Trim(a)
  {
    assert w1 + a + w2 == w1 + (a + w2);
    TrimStartAppend(w1, a + w2);
    TrimStartAppend(a, w2);
    if AllWhitespace(a) {
      TrimStartAppend(w2, []);
      assert w2 + [] == w2;
      assert TrimStart(w2) == [] by { TrimEmptyIffWhitespace(w2); }
      assert TrimStart(a) == [] by { TrimEmptyIffWhitespace(a); }
    } else {
      TrimEndSkipsTrailing(TrimStart(a), w2);
    }
  }

  /** Lower-casing is idempotent, so an answer that is already lower case normalises to itself once trimmed. */
  lemma ToLowerIdempotent(s: string)
    ensures ToLower(ToLower(s)) == ToLower(s)
  {
    var l := ToLower(s);
    forall i | 0 <= i < |s| ensures LowerChar(l[i]) == l[i] {
    }
  }

  /** The text check ignores white space around the typed answer. */
  lemma TextCheckIgnoresPadding(quiz: Quiz, w1: string, a: string, w2: string)
    requires AllWhitespace(w1) && AllWhitespace(w2)
    ensures TextCorrect(quiz, w1 + a + w2) == TextCorrect(quiz, a)
  {
    PaddingIgnored(w1, a, w2);
  }

  /** The key itself, typed exactly, is always accepted. */
  lemma TextCheckAcceptsKey(quiz: Quiz)
    ensures TextCorrect(quiz, AnswerToString(quiz.resposta_correta))
  {
  }

  // ---------------------------------------------------------------- the component

  class Renderer {
    const quiz: Quiz
    /** The `disabled` prop. */
    var disabled: bool
    var selectedMultipleChoice: Option<int>
    var selectedTrueFalse: Option<bool>
    var textAnswer: string
    var hasSubmitted: bool
    /** The argument of every `onAnswerSubmit` call, in order. */
    var submitted: seq<bool>

    /** At most one submission, and `hasSubmitted` records whether it happened. */
    predicate Valid()
      reads this
    {
      |submitted| <= 1 && (hasSubmitted <==> |submitted| == 1)
    }

    constructor (quiz: Quiz, disabled: bool)
      ensures Valid() && this.quiz == quiz && this.disabled == disabled
      ensures selectedMultipleChoice == None && selectedTrueFalse == None
      ensures textAnswer == "" && !hasSubmitted && submitted == []
    {
      this.quiz := quiz;
      this.disabled := disabled;
      selectedMultipleChoice := None;
      selectedTrueFalse := None;
      textAnswer := "";
      hasSubmitted := false;
      submitted := [];
    }

    /** The parent changes the `disabled` prop. */
    method SetDisabled(d: bool)
      requires Valid()
      modifies this
      ensures Valid() && disabled == d
      ensures hasSubmitted == old(hasSubmitted) && submitted == old(submitted)
      ensures textAnswer == old(textAnswer)
      ensures selectedMultipleChoice == old(selectedMultipleChoice) && selectedTrueFalse == old(selectedTrueFalse)
    {
      disabled := d;
    }

    /** `handleMultipleChoiceSelect`. */
    method SelectMultipleChoice(index: int)
      requires Valid()
      modifies this
      ensures Valid() && disabled == old(disabled) && textAnswer == old(textAnswer)
      ensures old(disabled || hasSubmitted) ==>
                submitted == old(submitted) && selectedMultipleChoice == old(selectedMultipleChoice)
                && hasSubmitted == old(hasSubmitted)
      ensures !old(disabled || hasSubmitted) ==>
                && submitted == [MultipleChoiceCorrect(quiz, index)]
                && selectedMultipleChoice == Some(index) && hasSubmitted
      ensures selectedTrueFalse == old(selectedTrueFalse)
    {
      if disabled || hasSubmitted {
        return;
      }
      selectedMultipleChoice := Some(index);
      var isCorrect := quiz.resposta_correta == Num(index);
      hasSubmitted := true;
      submitted := submitted + [isCorrect];
    }

    /** `handleTrueFalseSelect`. */
    method SelectTrueFalse(value: bool)
      requires Valid()
      modifies this
      ensures Valid() && disabled == old(disabled) && textAnswer == old(textAnswer)
      ensures old(disabled || hasSubmitted) ==>
                submitted == old(submitted) && selectedTrueFalse == old(selectedTrueFalse)
                && hasSubmitted == old(hasSubmitted)
      ensures !old(disabled || hasSubmitted) ==>
                && submitted == [TrueFalseCorrect(quiz, value)]
                && selectedTrueFalse == Some(value) && hasSubmitted
      ensures selectedMultipleChoice == old(selectedMultipleChoice)
    {
      if disabled || hasSubmitted {
        return;
      }
      selectedTrueFalse := Some(value);
      var isCorrect := quiz.resposta_correta == Bool(value);
      hasSubmitted := true;
      submitted := submitted + [isCorrect];
    }

    /** `onAnswerChange`: the typed text; the child view stops offering it once submitted. */
    method ChangeText(text: string)
      requires Valid()
      modifies this
      ensures Valid() && textAnswer == text && disabled == old(disabled)
      ensures hasSubmitted == old(hasSubmitted) && submitted == old(submitted)
      ensures selectedMultipleChoice == old(selectedMultipleChoice) && selectedTrueFalse == old(selectedTrueFalse)
    {
      textAnswer := text;
    }

    /** `handleTextSubmit`: a blank answer is ignored without submitting. */
    method SubmitText()
      requires Valid()
      modifies this
      ensures Valid() && disabled == old(disabled) && textAnswer == old(textAnswer)
      ensures old(disabled || hasSubmitted || IsBlank(textAnswer)) ==>
                submitted == old(submitted) && hasSubmitted == old(hasSubmitted)
      ensures !old(disabled || hasSubmitted || IsBlank(textAnswer)) ==>
                submitted == [TextCorrect(quiz, textAnswer)] && hasSubmitted
      ensures selectedMultipleChoice == old(selectedMultipleChoice)
      ensures selectedTrueFalse == old(selectedTrueFalse)
    {
      if disabled || hasSubmitted || Trim(textAnswer) == "" {
        return;
      }
      var given := Normalize(textAnswer);
      var expected := Normalize(AnswerToString(quiz.resposta_correta));
      var isCorrect := given == expected;
      assert isCorrect == TextCorrect(quiz, textAnswer);
      hasSubmitted := true;
      submitted := submitted + [isCorrect];
    }
  }
}
