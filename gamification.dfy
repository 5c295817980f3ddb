/** The gamification page (src/components/Gamification.tsx): the quiz state
    machine, the section tabs that mount it, the earned/locked badge split
    and the icon and difficulty-colour helpers. */
module Gamification {
  import opened Types
  import DemoData

  // ---------------------------------------------------------------------
  // The quiz
  // ---------------------------------------------------------------------

  /** How one answer button is drawn. While the result is hidden only the
      selection is highlighted; once shown, the correct option is marked,
      a wrong selection is marked, and the rest are dimmed. */
  datatype OptionLook = Idle | Highlighted | MarkedCorrect | MarkedWrong | Dimmed

  /** The points an answer to `q` earns: nothing unless it is the correct
      answer, and never more than the question is worth. */
  function AnswerPoints(q: QuizQuestion, answer: nat): (p: int)
    ensures p != 0 ==> answer == q.correctAnswer
    ensures q.points >= 0 ==> 0 <= p <= q.points
  {
    if answer == q.correctAnswer then q.points else 0
  }

  /** The points of a history of (question index, answer) pairs. */
  function Earned(questions: seq<QuizQuestion>, history: seq<(nat, nat)>): (score: int)
    requires forall k :: 0 <= k < |history| ==> history[k].0 < |questions|
    ensures (forall k :: 0 <= k < |history| ==> history[k].1 != questions[history[k].0].correctAnswer) ==> score == 0
  {
    if history == [] then 0
    else
      var last := history[|history| - 1];
      Earned(questions, history[..|history| - 1]) + AnswerPoints(questions[last.0], last.1)
  }

  /** With no negative points anywhere, a longer history never has fewer
      points. */
  lemma {:induction false} EarnedGrows(questions: seq<QuizQuestion>, history: seq<(nat, nat)>, n: nat)
    requires forall k :: 0 <= k < |history| ==> history[k].0 < |questions|
    requires forall q :: q in questions ==> q.points >= 0
    requires n <= |history|
    ensures Earned(questions, history[..n]) <= Earned(questions, history)
    decreases |history|
  {
    if n < |history| {
      var front := history[..|history| - 1];
      assert history[..n] == front[..n];
      EarnedGrows(questions, front, n);
      assert questions[history[|history| - 1].0] in questions;
    } else {
      assert history[..n] == history;
    }
  }

  /** The maximum a history can earn: every answer correct. */
  function MaxEarned(questions: seq<QuizQuestion>, history: seq<(nat, nat)>): int
    requires forall k :: 0 <= k < |history| ==> history[k].0 < |questions|
  {
    if history == [] then 0
    else
      var last := history[|history| - 1];
      MaxEarned(questions, history[..|history| - 1]) + questions[last.0].points
  }

  /** A score only ever comes from correct answers: with non-negative points
      it lies between 0 and the all-correct total. */
  lemma {:induction false} EarnedBounds(questions: seq<QuizQuestion>, history: seq<(nat, nat)>)
    requires forall k :: 0 <= k < |history| ==> history[k].0 < |questions|
    requires forall q :: q in questions ==> q.points >= 0
    ensures 0 <= Earned(questions, history) <= MaxEarned(questions, history)
  {
    if history != [] {
      EarnedBounds(questions, history[..|history| - 1]);
      assert questions[history[|history| - 1].0] in questions;
    }
  }

  /** The share of questions reached, in percent: positive, at most 100,
      and 100 only on the last question. */
  lemma ShareOfQuestions(reached: int, total: int)
    requires 0 < reached <= total
    ensures 0.0 < reached as real / total as real * 100.0 <= 100.0
    ensures reached as real / total as real * 100.0 == 100.0 <==> reached == total
  {
    var r := reached as real / total as real;
    assert r * total as real == reached as real;
    assert (reached - total) as real == (r - 1.0) * total as real;
  }

  /** `QuizZone`: the question shown, the answer picked, whether the result
      is shown, and the score. `history` records every answer given, as
      (question index, answer index), so the score can be accounted for. */
  class QuizZone {
    const questions: seq<QuizQuestion>
    var currentQuestion: nat
    var selectedAnswer: Option<nat>
    var showResult: bool
    var score: int
    ghost var history: seq<(nat, nat)>

    ghost predicate Valid()
      reads this
    {
      |questions| > 0 && currentQuestion < |questions|
      && (forall k :: 0 <= k < |history| ==> history[k].0 < |questions|)
      && score == Earned(questions, history)
      && (showResult <==> selectedAnswer.Some?)
      && (showResult ==> history != [] && history[|history| - 1] == (currentQuestion, selectedAnswer.value))
    }

    /** A freshly mounted quiz: first question, nothing picked, result
        hidden, no points. */
    constructor (questions: seq<QuizQuestion>)
      requires |questions| > 0
      ensures Valid()
      ensures this.questions == questions
      ensures currentQuestion == 0 && selectedAnswer == None && !showResult && score == 0 && history == []
    {
      this.questions := questions;
      currentQuestion := 0;
      selectedAnswer := None;
      showResult := false;
      score := 0;
      history := [];
    }

    /** The question on screen. */
    function Question(): QuizQuestion
      reads this
      requires Valid()
    {
      questions[currentQuestion]
    }

    /** `handleAnswer`: pick the answer, show the result, and add the
        question's points exactly when the answer is the correct one. */
    method HandleAnswer(answerIndex: nat)
      requires Valid()
      modifies this
      ensures Valid()
      ensures selectedAnswer == Some(answerIndex) && showResult
      ensures currentQuestion == old(currentQuestion)
      ensures score == old(score) + (if answerIndex == old(Question()).correctAnswer then old(Question()).points else 0)
      ensures old(Question()).points >= 0 ==> score >= old(score)
      ensures history == old(history) + [(old(currentQuestion), answerIndex)]
    {
      var question := questions[currentQuestion];
      history := history + [(currentQuestion, answerIndex)];
      assert history[..|history| - 1] == old(history);
      selectedAnswer := Some(answerIndex);
      showResult := true;
      if answerIndex == question.correctAnswer {
        score := score + question.points;
      }
    }

    /** A click on an answer button: ignored while the result is shown, so a
        visit to a question is scored at most once. */
    method ClickOption(idx: nat)
      requires Valid() && idx < |Question().options|
      modifies this
      ensures Valid()
      ensures old(showResult) ==>
        selectedAnswer == old(selectedAnswer) && showResult && score == old(score) && history == old(history)
      ensures !old(showResult) ==>
        selectedAnswer == Some(idx) && showResult && history == old(history) + [(old(currentQuestion), idx)]
        && score == old(score) + AnswerPoints(old(Question()), idx)
      ensures currentQuestion == old(currentQuestion)
    {
      if !showResult {
        HandleAnswer(idx);
      }
    }

    /** `nextQuestion`: on to the next question, or back to the first from
        the last; the selection and result are cleared and the score kept. */
    method NextQuestion()
      requires Valid()
      modifies this
      ensures Valid()
      ensures currentQuestion == if old(currentQuestion) < |questions| - 1 then old(currentQuestion) + 1 else 0
      ensures selectedAnswer == None && !showResult
      ensures score == old(score) && history == old(history)
    {
      if currentQuestion < |questions| - 1 {
        currentQuestion := currentQuestion + 1;
        selectedAnswer := None;
        showResult := false;
      } else {
        currentQuestion := 0;
        selectedAnswer := None;
        showResult := false;
      }
    }

    /** The label of the button under the result. */
    function ButtonLabel(): (caption: string)
      reads this
      requires Valid()
      ensures caption == "Restart Quiz" <==> currentQuestion == |questions| - 1
      ensures caption == "Next Question" <==> currentQuestion < |questions| - 1
    {
      if currentQuestion < |questions| - 1 then "Next Question" else "Restart Quiz"
    }

    /** The width of the progress bar, in percent: the share of questions
        reached so far. */
    function ProgressPercent(): (p: real)
      reads this
      requires Valid()
      ensures 0.0 < p <= 100.0
      ensures p == 100.0 <==> currentQuestion == |questions| - 1
    {
      ShareOfQuestions(currentQuestion + 1, |questions|);
      (currentQuestion + 1) as real / |questions| as real * 100.0
    }

    /** The result panel's verdict: the selection is the correct answer. */
    predicate AnsweredCorrectly()
      reads this
      requires Valid()
    {
      selectedAnswer.Some? && selectedAnswer.value == Question().correctAnswer
    }

    /** How the answer button `idx` is drawn. */
    function Look(idx: nat): (look: OptionLook)
      reads this
      requires Valid()
      ensures !showResult ==> (look == Highlighted <==> selectedAnswer == Some(idx))
      ensures !showResult ==> look in {Idle, Highlighted}
      ensures showResult ==> (look == MarkedCorrect <==> idx == Question().correctAnswer)
      ensures showResult ==> (look == MarkedWrong <==> idx != Question().correctAnswer && selectedAnswer == Some(idx))
      ensures showResult ==> look in {MarkedCorrect, MarkedWrong, Dimmed}
    {
      if showResult then
        if idx == Question().correctAnswer then MarkedCorrect
        else if selectedAnswer == Some(idx) then MarkedWrong
        else Dimmed
      else if selectedAnswer == Some(idx) then Highlighted
      else Idle
    }
  }

  /** With the result shown, exactly one option is marked wrong or none:
      the selection, when it is not the correct answer. */
  lemma AtMostOneWrongMark(quiz: QuizZone, i: nat, j: nat)
    requires quiz.Valid() && quiz.showResult
    requires quiz.Look(i) == MarkedWrong && quiz.Look(j) == MarkedWrong
    ensures i == j
  {
  }

  // ---------------------------------------------------------------------
  // The section tabs
  // ---------------------------------------------------------------------

  datatype Section = QuizSection | BadgesSection | GamesSection

  /** The page with its tab state: `activeSection` picks which section is
      mounted, and `quiz` is the quiz state while the quiz section is the
      one shown. Leaving the quiz tab unmounts the quiz, and coming back
      mounts a fresh one. */
  class GamificationPage {
    const questions: seq<QuizQuestion>
    var activeSection: Section
    var quiz: QuizZone

    ghost predicate Valid()
      reads this, quiz
    {
      quiz.Valid() && quiz.questions == questions
    }

    constructor (questions: seq<QuizQuestion>)
      requires |questions| > 0
      ensures Valid() && this.questions == questions && activeSection == QuizSection
      ensures fresh(quiz) && quiz.currentQuestion == 0 && quiz.score == 0 && !quiz.showResult
    {
      this.questions := questions;
      activeSection := QuizSection;
      quiz := new QuizZone(questions);
    }

    /** A tab click. Choosing the quiz tab from another tab starts a new quiz;
        choosing the tab already shown changes nothing. */
    method SelectSection(s: Section)
      requires Valid()
      modifies this
      ensures Valid() && activeSection == s
      ensures s == QuizSection && old(activeSection) != QuizSection ==>
        fresh(quiz) && quiz.currentQuestion == 0 && quiz.selectedAnswer == None
        && !quiz.showResult && quiz.score == 0
      ensures !(s == QuizSection && old(activeSection) != QuizSection) ==> quiz == old(quiz)
    {
      if s == QuizSection && activeSection != QuizSection {
        quiz := new QuizZone(questions);
      }
      activeSection := s;
    }

    /** Exactly one section is rendered: the active one. */
    predicate Shows(s: Section)
      reads this
    {
      activeSection == s
    }
  }

  /** The page can be opened on the demo questions (its constructor needs a
      non-empty list), and every demo question is worth a positive number
      of points, which is what makes the score monotone. */
  lemma DemoQuizIsPlayable()
    ensures |DemoData.QuizQuestions| > 0
    ensures forall q :: q in DemoData.QuizQuestions ==> q.points > 0
  {
    DemoData.QuizQuestionsAreWellFormed();
  }

  /** Whichever tab is active, exactly one section shows. */
  lemma OneSectionShows(page: GamificationPage)
    ensures page.Shows(QuizSection) || page.Shows(BadgesSection) || page.Shows(GamesSection)
    ensures forall s: Section, t: Section :: page.Shows(s) && page.Shows(t) ==> s == t
  {
  }

  // ---------------------------------------------------------------------
  // Badges
  // ---------------------------------------------------------------------

  /** `badges.slice(0, 3)`: the first three badges, or all of them when
      there are fewer. */
  function EarnedBadges(badges: seq<Badge>): (earned: seq<Badge>)
    ensures |earned| == if |badges| < 3 then |badges| else 3
    ensures earned == badges[..|earned|]
  {
    if |badges| < 3 then badges else badges[..3]
  }

  /** `badges.slice(3)`: every badge after the third. */
  function LockedBadges(badges: seq<Badge>): (locked: seq<Badge>)
    ensures |locked| == if |badges| < 3 then 0 else |badges| - 3
    ensures locked == badges[|badges| - |locked|..]
  {
    if |badges| < 3 then [] else badges[3..]
  }

  /** Earned then locked is the whole list, in order. */
  lemma SplitIsWholeList(badges: seq<Badge>)
    ensures EarnedBadges(badges) + LockedBadges(badges) == badges
  {
    if |badges| >= 3 {
      assert badges[..3] + badges[3..] == badges;
    }
  }

  /** With distinct badges, no badge is both earned and locked. */
  lemma SplitIsDisjoint(badges: seq<Badge>)
    requires forall i, j :: 0 <= i < j < |badges| ==> badges[i] != badges[j]
    ensures forall b :: b in EarnedBadges(badges) ==> b !in LockedBadges(badges)
  {
    var earned := EarnedBadges(badges);
    var locked := LockedBadges(badges);
    forall b | b in earned
      ensures b !in locked
    {
      var i :| 0 <= i < |earned| && earned[i] == b;
      forall j | 0 <= j < |locked|
        ensures locked[j] != b
      {
        assert locked[j] == badges[|earned| + j];
      }
    }
  }

  /** The six demo badges split into three earned and three locked, and
      the last of them, whose icon name `search` has no case of its own,
      is drawn with the fallback icon. */
  lemma DemoBadgeSplit()
    ensures |EarnedBadges(DemoData.Badges)| == 3 && |LockedBadges(DemoData.Badges)| == 3
    ensures GetIcon(DemoData.Badges[5].icon) == Award
  {
    DemoData.ThereAreSixBadges();
  }

  /** `getIcon`, over the badge's icon name. */
  function GetIcon(iconName: string): (g: Glyph)
    ensures g in {Trophy, Award, Star, Target, CheckCircle}
  {
    if iconName == "trophy" then Trophy
    else if iconName == "award" then Award
    else if iconName == "star" then Star
    else if iconName == "target" then Target
    else if iconName == "shield" then CheckCircle
    else Award
  }

  /** Every name other than the four with their own icon falls back to the
      award icon; each of those four gets a distinct icon. */
  lemma IconFallback(iconName: string)
    ensures GetIcon(iconName) == Award <==>
      iconName != "trophy" && iconName != "star" && iconName != "target" && iconName != "shield"
    ensures GetIcon(iconName) == Trophy <==> iconName == "trophy"
    ensures GetIcon(iconName) == Star <==> iconName == "star"
    ensures GetIcon(iconName) == Target <==> iconName == "target"
    ensures GetIcon(iconName) == CheckCircle <==> iconName == "shield"
  {
  }

  // ---------------------------------------------------------------------
  // Difficulty colours
  // ---------------------------------------------------------------------

  const GreenBadge := "bg-green-100 text-green-800"
  const YellowBadge := "bg-yellow-100 text-yellow-800"
  const RedBadge := "bg-red-100 text-red-800"

  /** The quiz's `getDifficultyColor`, over the lower-case names. */
  function QuizDifficultyColor(difficulty: string): (c: string)
    ensures c == GreenBadge <==> difficulty == "easy"
    ensures c == YellowBadge <==> difficulty == "medium"
    ensures c == RedBadge <==> difficulty != "easy" && difficulty != "medium"
  {
    if difficulty == "easy" then GreenBadge
    else if difficulty == "medium" then YellowBadge
    else RedBadge
  }

  /** The game cards' `getDifficultyColor`, over the capitalised names. */
  function GameDifficultyColor(difficulty: string): (c: string)
    ensures c == GreenBadge <==> difficulty == "Easy"
    ensures c == YellowBadge <==> difficulty == "Medium"
    ensures c == RedBadge <==> difficulty != "Easy" && difficulty != "Medium"
  {
    if difficulty == "Easy" then GreenBadge
    else if difficulty == "Medium" then YellowBadge
    else RedBadge
  }

  /** The quiz's three difficulties get three different colours, hard the
      red one. */
  lemma QuizDifficultiesAreDistinct(d: Difficulty)
    ensures QuizDifficultyColor(d.Name()) == RedBadge <==> d == Hard
    ensures QuizDifficultyColor(d.Name()) == GreenBadge <==> d == Easy
  {
  }

  /** The two helpers agree once the name is written their way, and the
      comparison is case-sensitive: a lower-case name on a game card falls
      into the red style. */
  lemma DifficultyHelpersAgree()
    ensures GameDifficultyColor("Easy") == QuizDifficultyColor("easy")
    ensures GameDifficultyColor("Medium") == QuizDifficultyColor("medium")
    ensures GameDifficultyColor("Hard") == QuizDifficultyColor("hard")
    ensures GameDifficultyColor("easy") == RedBadge && GameDifficultyColor("medium") == RedBadge
  {
  }
}
