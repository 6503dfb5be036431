/**
 * The bundled question service: queries over the compiled-in list of legacy questions.
 * The list is never reassigned, so every query is a function of it. The shuffle of
 * `getRandomQuestions` is an input: any permutation of the list.
 */
module QuestionsService {
  import opened Wrappers
  import opened QuizTypes

  /** `getAllQuestions`: the stored list itself. */
  function GetAllQuestions(questions: seq<Question>): (r: seq<Question>)
    ensures r == questions
  {
    questions
  }

  /** `getQuestionsByCategory`: the questions of one category, in their stored order. */
  function GetQuestionsByCategory(questions: seq<Question>, category: string): (r: seq<Question>)
    ensures forall q :: q in r ==> q in questions && q.categoria == category
    ensures forall q :: q in questions && q.categoria == category ==> q in r
    ensures |r| <= |questions|
  {
    if questions == [] then []
    else
      (if questions[0].categoria == category then [questions[0]] else [])
      + GetQuestionsByCategory(questions[1..], category)
  }

  /** Filtering a concatenation filters each part: the stored order is kept. */
  lemma {:induction false} ByCategoryAppend(a: seq<Question>, b: seq<Question>, category: string)
    ensures GetQuestionsByCategory(a + b, category)
            == GetQuestionsByCategory(a, category) + GetQuestionsByCategory(b, category)
  {
    if a != [] {
      assert (a + b)[0] == a[0] && (a + b)[1..] == a[1..] + b;
      ByCategoryAppend(a[1..], b, category);
    } else {
      assert a + b == b;
    }
  }

  /** Each question of the category occurs as often as in the stored list; others not at all. */
  lemma {:induction false} ByCategoryMultiplicity(questions: seq<Question>, category: string, q: Question)
    ensures multiset(GetQuestionsByCategory(questions, category))[q]
            == if q.categoria == category then multiset(questions)[q] else 0
  {
    if questions != [] {
      ByCategoryMultiplicity(questions[1..], category, q);
      assert questions == [questions[0]] + questions[1..];
    }
  }

  function Min(a: int, b: int): int {
    if a <= b then a else b
  }

  /** Where `slice(0, end)` stops on a list of length `n`: a negative end counts from the back. */
  function SliceEnd(end: int, n: nat): (e: nat)
    ensures e <= n
    ensures 0 <= end ==> e == Min(end, n)
    ensures end < 0 ==> e == if n + end < 0 then 0 else n + end
  {
    if end < 0 then (if n + end < 0 then 0 else n + end)
    else if end > n then n
    else end
  }

  /**
   * `getRandomQuestions(count)`: a prefix of a shuffled copy. `shuffled` is the copy after the
   * random sort, a permutation of the stored list; the stored list itself is not reordered.
   */
  function GetRandomQuestions(questions: seq<Question>, count: int, shuffled: seq<Question>): (r: seq<Question>)
    requires multiset(shuffled) == multiset(questions)
    ensures 0 <= count ==> |r| == Min(count, |questions|)
    ensures multiset(r) <= multiset(questions)
    ensures |r| <= |shuffled| && r == shuffled[..|r|]
  {
    assert |shuffled| == |multiset(shuffled)| == |questions|;
    var prefix := shuffled[..SliceEnd(Min(count, |shuffled|), |shuffled|)];
    assert shuffled == prefix + shuffled[|prefix|..];
    prefix
  }

  /** Asking for more questions than stored returns all of them, each exactly once. */
  lemma RandomQuestionsAllWhenCountLarge(questions: seq<Question>, count: int, shuffled: seq<Question>)
    requires multiset(shuffled) == multiset(questions)
    requires count >= |questions|
    ensures multiset(GetRandomQuestions(questions, count, shuffled)) == multiset(questions)
  {
    var r := GetRandomQuestions(questions, count, shuffled);
    assert |shuffled| == |multiset(shuffled)| == |questions|;
    assert r == shuffled;
  }

  /** A negative count drops that many questions from the end of the shuffled copy. */
  lemma RandomQuestionsNegativeCount(questions: seq<Question>, count: int, shuffled: seq<Question>)
    requires multiset(shuffled) == multiset(questions)
    requires count < 0 && |questions| + count >= 0
    ensures |GetRandomQuestions(questions, count, shuffled)| == |questions| + count
  {
    assert |shuffled| == |multiset(shuffled)| == |questions|;
  }

  /** `getQuestionById`: the first question with that id, or none. */
  function GetQuestionById(questions: seq<Question>, id: string): (r: Option<Question>)
    ensures r.None? <==> forall q :: q in questions ==> q.id != id
    ensures r.Some? ==> exists i :: && 0 <= i < |questions| && questions[i] == r.value
                                    && r.value.id == id
                                    && forall j :: 0 <= j < i ==> questions[j].id != id
  {
    if questions == [] then None
    else if questions[0].id == id then Some(questions[0])
    else
      var r := GetQuestionById(questions[1..], id);
      assert r.Some? ==> exists i :: && 0 <= i < |questions| && questions[i] == r.value
                                    && r.value.id == id
                                    && forall j :: 0 <= j < i ==> questions[j].id != id by {
        if r.Some? {
          var i :| && 0 <= i < |questions[1..]| && questions[1..][i] == r.value
                   && forall j :: 0 <= j < i ==> questions[1..][j].id != id;
          assert questions[i + 1] == r.value;
          assert forall j :: 0 <= j < i + 1 ==> questions[j].id != id by {
            forall j | 0 <= j < i + 1 ensures questions[j].id != id {
              if j > 0 { assert questions[j] == questions[1..][j - 1]; }
            }
          }
        }
      }
      r
  }

  /** The category of every stored question, in order. */
  function CategoryColumn(questions: seq<Question>): (c: seq<string>)
    ensures |c| == |questions|
    ensures forall i :: 0 <= i < |questions| ==> c[i] == questions[i].categoria
  {
    seq(|questions|, i requires 0 <= i < |questions| => questions[i].categoria)
  }

  /** Position of the first occurrence of `x` in `s`. */
  function FirstIndex(s: seq<string>, x: string): (i: nat)
    requires x in s
    ensures i < |s| && s[i] == x && x !in s[..i]
  {
    if s[0] == x then 0
    else
      var k := FirstIndex(s[1..], x);
      assert s[..k + 1] == [s[0]] + s[1..][..k];
      k + 1
  }

  /** Insertion into a Set keeps the first occurrence: the distinct values in first-occurrence order. */
  function Distinct(s: seq<string>): (r: seq<string>)
    ensures forall x :: x in r <==> x in s
    ensures NoDuplicates(r)
  {
    if s == [] then []
    else
      var d := Distinct(s[..|s| - 1]);
      assert forall x :: x in s <==> x in s[..|s| - 1] || x == s[|s| - 1] by {
        assert s == s[..|s| - 1] + [s[|s| - 1]];
      }
      if s[|s| - 1] in d then d else d + [s[|s| - 1]]
  }

  /** `getCategories`: each category once, in the order it first occurs. */
  function GetCategories(questions: seq<Question>): (r: seq<string>)
    ensures NoDuplicates(r)
    ensures forall c :: c in r <==> exists q :: q in questions && q.categoria == c
  {
    var column := CategoryColumn(questions);
    assert forall c :: c in column <==> exists q :: q in questions && q.categoria == c by {
      forall c | c in column ensures exists q :: q in questions && q.categoria == c {
        var i :| 0 <= i < |column| && column[i] == c;
        assert questions[i] in questions;
      }
      forall c | exists q :: q in questions && q.categoria == c ensures c in column {
        var q :| q in questions && q.categoria == c;
        var i :| 0 <= i < |questions| && questions[i] == q;
        assert column[i] == c;
      }
    }
    Distinct(column)
  }

  /** An occurrence in a proper prefix is found at the same place in the whole sequence. */
  lemma {:induction false} FirstIndexOfPrefix(s: seq<string>, n: nat, x: string)
    requires n <= |s| && x in s[..n]
    ensures FirstIndex(s, x) == FirstIndex(s[..n], x)
  {
    if s[0] != x {
      assert s[1..][..n - 1] == s[..n][1..];
      FirstIndexOfPrefix(s[1..], n - 1, x);
    }
  }

  /** Every value of `r` occurs in `s`, and `r` lists them by increasing first occurrence in `s`. */
  predicate OrderedByFirstOccurrence(s: seq<string>, r: seq<string>) {
    && (forall x :: x in r ==> x in s)
    && forall i, j :: 0 <= i < j < |r| ==>
         r[i] in s && r[j] in s && FirstIndex(s, r[i]) < FirstIndex(s, r[j])
  }

  /** Extending `s` by one value keeps the order of values already seen. */
  lemma ExtendKeepsOrder(s: seq<string>, d: seq<string>)
    requires s != [] && OrderedByFirstOccurrence(s[..|s| - 1], d)
    ensures OrderedByFirstOccurrence(s, d)
  {
    var p := s[..|s| - 1];
    forall x | x in d ensures x in s && FirstIndex(s, x) == FirstIndex(p, x) {
      FirstIndexOfPrefix(s, |s| - 1, x);
    }
  }

  /** A value new to `s[..|s|-1]` first occurs last, after everything already listed. */
  lemma AppendNewKeepsOrder(s: seq<string>, d: seq<string>)
    requires s != [] && s[|s| - 1] !in s[..|s| - 1]
    requires OrderedByFirstOccurrence(s[..|s| - 1], d)
    ensures OrderedByFirstOccurrence(s, d + [s[|s| - 1]])
  {
    var p := s[..|s| - 1];
    var last := s[|s| - 1];
    ExtendKeepsOrder(s, d);
    assert FirstIndex(s, last) == |s| - 1 by {
      assert s == p + [last];
    }
    forall x | x in d ensures FirstIndex(s, x) < |s| - 1 {
      FirstIndexOfPrefix(s, |s| - 1, x);
    }
    var r := d + [last];
    forall i, j | 0 <= i < j < |r|
      ensures r[i] in s && r[j] in s && FirstIndex(s, r[i]) < FirstIndex(s, r[j])
    {
      assert r[i] == d[i];
      if j < |d| {
        assert r[j] == d[j];
      }
    }
  }

  /** The distinct values appear in the order of their first occurrences. */
  lemma {:induction false} DistinctFirstOccurrenceOrder(s: seq<string>)
    ensures OrderedByFirstOccurrence(s, Distinct(s))
  {
    if s != [] {
      var p := s[..|s| - 1];
      DistinctFirstOccurrenceOrder(p);
      if s[|s| - 1] in Distinct(p) {
        ExtendKeepsOrder(s, Distinct(p));
      } else {
        AppendNewKeepsOrder(s, Distinct(p));
      }
    }
  }

  /** `getCategories` lists categories in the order of their first occurrence among the questions. */
  lemma CategoriesFirstOccurrenceOrder(questions: seq<Question>)
    ensures OrderedByFirstOccurrence(CategoryColumn(questions), GetCategories(questions))
  {
    DistinctFirstOccurrenceOrder(CategoryColumn(questions));
  }
}
