/**
 * The trivia flashcard page: a deck of questions filtered by category, a
 * current card that shows its question or, flipped, its answer, and the set
 * of card positions that have been flipped to their answer.
 */
module Trivia {
  import opened Seqs

  datatype Difficulty = Easy | Medium | Hard

  datatype Category = Script | Themes | Cultural | Characters

  datatype Question = Question(q: string, a: string, difficulty: Difficulty, category: Category)

  /** `"all"` or one category. */
  datatype CategoryFilter = All | Only(category: Category)

  predicate InCategory(c: Category, question: Question) {
    question.category == c
  }

  /** The cards a filter shows, before any shuffle: all of them, or those of one category in order. */
  function Visible(questions: seq<Question>, filter: CategoryFilter): (cards: seq<Question>)
    ensures filter.All? ==> cards == questions
    ensures filter.Only? ==> forall k :: 0 <= k < |cards| ==> cards[k].category == filter.category
    ensures IsSubsequence(cards, questions)
  {
    match filter
    case All => SubsequenceOfItself(questions); questions
    case Only(c) => Filter(questions, q => InCategory(c, q))
  }

  /** A filter keeps every card of its category, as often as it is loaded, and no other card. */
  lemma VisibleCounts(questions: seq<Question>, filter: CategoryFilter, x: Question)
    ensures multiset(Visible(questions, filter))[x] ==
              if filter.All? || x.category == filter.category then multiset(questions)[x] else 0
  {
    if filter.Only? {
      FilterCount(questions, q => InCategory(filter.category, q), x);
    }
  }

  /** Positions drawn from `0 .. n - 1`, or `0` alone, number at most `n`, or one for an empty deck. */
  lemma {:induction false} PositionsBound(positions: set<nat>, n: nat)
    requires forall k :: k in positions ==> k == 0 || k < n
    ensures |positions| <= if n == 0 then 1 else n
    decreases n
  {
    if n <= 1 {
      assert positions <= {0};
      if 0 in positions {
        assert positions == {0};
      }
    } else {
      var rest := positions - {n - 1};
      PositionsBound(rest, n - 1);
      assert |rest| >= |positions| - 1;
    }
  }

  /** Fisher–Yates picks: for each position `i`, the position `j <= i` it is swapped with. */
  ghost predicate ValidPicks(picks: seq<nat>) {
    forall i :: 0 <= i < |picks| ==> picks[i] <= i
  }

  /** `[s[i], s[j]] = [s[j], s[i]]`: the two cards trade places and nothing else moves. */
  function Swap<T>(s: seq<T>, i: nat, j: nat): (r: seq<T>)
    requires i < |s| && j < |s|
    ensures |r| == |s| && r[i] == s[j] && r[j] == s[i]
    ensures forall k :: 0 <= k < |s| && k != i && k != j ==> r[k] == s[k]
  {
    s[i := s[j]][j := s[i]]
  }

  /** One swap keeps the deck's multiset of cards. */
  lemma SwapPermutes<T>(s: seq<T>, i: nat, j: nat)
    requires i < |s| && j < |s|
    ensures multiset(Swap(s, i, j)) == multiset(s)
  {
  }

  /** The deck after the swaps for positions `i`, `i - 1`, ..., `1`, in that order. */
  function ShuffleDown<T>(s: seq<T>, picks: seq<nat>, i: int): (r: seq<T>)
    requires |picks| == |s| && ValidPicks(picks) && i < |s|
    decreases i
  {
    if i <= 0 then s else ShuffleDown(Swap(s, i, picks[i]), picks, i - 1)
  }

  /** Shuffling only reorders the deck: each card appears as often as before. */
  lemma {:induction false} ShuffleDownPermutes<T>(s: seq<T>, picks: seq<nat>, i: int)
    requires |picks| == |s| && ValidPicks(picks) && i < |s|
    ensures |ShuffleDown(s, picks, i)| == |s|
    ensures multiset(ShuffleDown(s, picks, i)) == multiset(s)
    decreases i
  {
    if i > 0 {
      SwapPermutes(s, i, picks[i]);
      ShuffleDownPermutes(Swap(s, i, picks[i]), picks, i - 1);
    }
  }

  /** The result of the descending swap loop of `shuffleCards`: a permutation of the deck. */
  function FisherYates<T>(s: seq<T>, picks: seq<nat>): (r: seq<T>)
    requires |picks| == |s| && ValidPicks(picks)
    ensures |r| == |s| && multiset(r) == multiset(s)
  {
    ShuffleDownPermutes(s, picks, |s| - 1);
    ShuffleDown(s, picks, |s| - 1)
  }

  /** Picks that always choose the card's own position leave the deck as it was. */
  lemma {:induction false} ShuffleDownIdentity<T>(s: seq<T>, picks: seq<nat>, i: int)
    requires |picks| == |s| && i < |s|
    requires forall k :: 0 <= k < |picks| ==> picks[k] == k
    ensures ShuffleDown(s, picks, i) == s
    decreases i
  {
    if i > 0 {
      assert Swap(s, i, picks[i]) == s;
      ShuffleDownIdentity(s, picks, i - 1);
    }
  }

  /** `[shuffled[i], shuffled[j]] = [shuffled[j], shuffled[i]]`. */
  method SwapInPlace<T>(a: array<T>, i: nat, j: nat)
    requires i < a.Length && j < a.Length
    modifies a
    ensures a[..] == Swap(old(a[..]), i, j)
  {
    a[i], a[j] := a[j], a[i];
  }

  /** The `for (let i = length - 1; i > 0; i--)` loop over the copy `a`. */
  method ShuffleInPlace<T>(a: array<T>, picks: seq<nat>)
    requires |picks| == a.Length && ValidPicks(picks)
    modifies a
    ensures a[..] == FisherYates(old(a[..]), picks)
  {
    var i := a.Length - 1;
    while i > 0
      invariant -1 <= i < a.Length
      invariant ShuffleDown(a[..], picks, i) == FisherYates(old(a[..]), picks)
      decreases i
    {
      SwapInPlace(a, i, picks[i]);
      i := i - 1;
    }
  }

  class Flashcards {
    /** All loaded questions, in file order. */
    var questions: seq<Question>
    var filteredQuestions: seq<Question>
    var currentIndex: nat
    var isFlipped: bool
    var studiedCards: set<nat>
    var currentFilter: CategoryFilter

    /** A position the index may hold: a card of the deck, or 0 when the deck is empty. */
    ghost predicate InRange(k: nat)
      reads this
    {
      k == 0 || k < |filteredQuestions|
    }

    /** The index and every studied position are in range. */
    ghost predicate Valid()
      reads this
    {
      && InRange(currentIndex)
      && (forall k :: k in studiedCards ==> InRange(k))
    }

    /** The deck holds exactly the questions of the current filter, in some order. */
    ghost predicate Consistent()
      reads this
    {
      multiset(filteredQuestions) == multiset(Visible(questions, currentFilter))
    }

    /** The studied count never exceeds the number of cards in the deck (or one, for an empty deck). */
    lemma StudiedWithinDeck()
      requires Valid()
      ensures |studiedCards| <= if |filteredQuestions| == 0 then 1 else |filteredQuestions|
    {
      PositionsBound(studiedCards, |filteredQuestions|);
    }

    /** The page's initial state: no questions yet, on the first card, question side up, filter "all". */
    constructor ()
      ensures Valid() && Consistent()
      ensures questions == [] && filteredQuestions == []
      ensures currentIndex == 0 && !isFlipped && studiedCards == {} && currentFilter == All
    {
      questions := [];
      filteredQuestions := [];
      currentIndex := 0;
      isFlipped := false;
      studiedCards := {};
      currentFilter := All;
    }

    /**
     * The fetch of the questions succeeds with `loaded`: both lists are set
     * to it and nothing else changes. The handlers may already have run on
     * the empty deck, so a flip, a studied mark or a category chosen while
     * loading survives the load.
     */
    method Load(loaded: seq<Question>)
      requires Valid() && questions == [] && filteredQuestions == []
      modifies this
      ensures Valid()
      ensures questions == loaded && filteredQuestions == loaded
      ensures currentIndex == old(currentIndex) && isFlipped == old(isFlipped)
      ensures studiedCards == old(studiedCards) && currentFilter == old(currentFilter)
      ensures currentFilter == All ==> Consistent()
    {
      questions := loaded;
      filteredQuestions := loaded;
    }

    /** The load as evidently intended: the deck is what the chosen filter shows of the loaded questions. */
    method LoadFiltered(loaded: seq<Question>)
      requires Valid() && questions == [] && filteredQuestions == []
      modifies this
      ensures Valid() && Consistent()
      ensures questions == loaded && filteredQuestions == Visible(loaded, currentFilter)
      ensures currentIndex == old(currentIndex) && isFlipped == old(isFlipped)
      ensures studiedCards == old(studiedCards) && currentFilter == old(currentFilter)
    {
      questions := loaded;
      filteredQuestions := Visible(loaded, currentFilter);
    }

    /** The effect of `flipCard`: the card turns over; turning it to its answer marks it studied. */
    twostate predicate Flipped()
      reads this
    {
      && isFlipped == !old(isFlipped)
      && studiedCards == (if old(isFlipped) then old(studiedCards) else old(studiedCards) + {old(currentIndex)})
      && currentIndex == old(currentIndex)
      && filteredQuestions == old(filteredQuestions)
      && currentFilter == old(currentFilter)
      && questions == old(questions)
    }

    /** The effect of `nextCard`: one card on, question side up, unless on the last card. */
    twostate predicate MovedNext()
      reads this
    {
      && (if old(currentIndex) + 1 < |old(filteredQuestions)|
          then currentIndex == old(currentIndex) + 1 && !isFlipped
          else currentIndex == old(currentIndex) && isFlipped == old(isFlipped))
      && studiedCards == old(studiedCards)
      && filteredQuestions == old(filteredQuestions)
      && currentFilter == old(currentFilter)
      && questions == old(questions)
    }

    /** The effect of `previousCard`: one card back, question side up, unless on the first card. */
    twostate predicate MovedPrevious()
      reads this
    {
      && (if old(currentIndex) > 0
          then currentIndex == old(currentIndex) - 1 && !isFlipped
          else currentIndex == old(currentIndex) && isFlipped == old(isFlipped))
      && studiedCards == old(studiedCards)
      && filteredQuestions == old(filteredQuestions)
      && currentFilter == old(currentFilter)
      && questions == old(questions)
    }

    /** Nothing on the page changed. */
    twostate predicate Unchanged()
      reads this
    {
      && currentIndex == old(currentIndex)
      && isFlipped == old(isFlipped)
      && studiedCards == old(studiedCards)
      && filteredQuestions == old(filteredQuestions)
      && currentFilter == old(currentFilter)
      && questions == old(questions)
    }

    method FlipCard()
      requires Valid()
      modifies this
      ensures Valid() && Flipped()
      ensures old(studiedCards) <= studiedCards
    {
      if !isFlipped {
        studiedCards := studiedCards + {currentIndex};
      }
      isFlipped := !isFlipped;
    }

    method NextCard()
      requires Valid()
      modifies this
      ensures Valid() && MovedNext()
      ensures |filteredQuestions| > 0 ==> currentIndex < |filteredQuestions|
    {
      if currentIndex + 1 < |filteredQuestions| {
        currentIndex := currentIndex + 1;
        isFlipped := false;
      }
    }

    method PreviousCard()
      requires Valid()
      modifies this
      ensures Valid() && MovedPrevious()
      ensures |filteredQuestions| > 0 ==> currentIndex < |filteredQuestions|
    {
      if currentIndex > 0 {
        currentIndex := currentIndex - 1;
        isFlipped := false;
      }
    }

    /**
     * `shuffleCards`, with `picks[i]` standing for the random position
     * `Math.floor(Math.random() * (i + 1))` drawn for `i`: the deck is
     * permuted and the session restarts on the first card.
     */
    method ShuffleCards(picks: seq<nat>)
      requires Valid()
      requires |picks| == |filteredQuestions| && ValidPicks(picks)
      modifies this
      ensures Valid()
      ensures filteredQuestions == FisherYates(old(filteredQuestions), picks)
      ensures multiset(filteredQuestions) == multiset(old(filteredQuestions))
      ensures currentIndex == 0 && studiedCards == {} && !isFlipped
      ensures currentFilter == old(currentFilter) && questions == old(questions)
      ensures old(Consistent()) ==> Consistent()
    {
      var shuffled := new Question[|filteredQuestions|](i requires 0 <= i < |filteredQuestions| reads this =>
        filteredQuestions[i]);
      assert shuffled[..] == filteredQuestions;
      ShuffleInPlace(shuffled, picks);
      filteredQuestions := shuffled[..];
      currentIndex := 0;
      studiedCards := {};
      isFlipped := false;
    }

    /** `filterCategory`: the deck becomes the filter's cards in file order, and the session restarts. */
    method FilterCategory(filter: CategoryFilter)
      requires Valid()
      modifies this
      ensures Valid()
      ensures Consistent() && questions == old(questions)
      ensures currentFilter == filter && filteredQuestions == Visible(questions, filter)
      ensures currentIndex == 0 && studiedCards == {} && !isFlipped
    {
      currentFilter := filter;
      filteredQuestions := Visible(questions, filter);
      currentIndex := 0;
      studiedCards := {};
      isFlipped := false;
    }

    /** The reset button beside the studied count. */
    method ResetStudied()
      requires Valid()
      modifies this
      ensures Valid()
      ensures studiedCards == {}
      ensures currentIndex == old(currentIndex) && isFlipped == old(isFlipped)
      ensures filteredQuestions == old(filteredQuestions) && currentFilter == old(currentFilter)
      ensures questions == old(questions)
    {
      studiedCards := {};
    }

    /**
     * `handleCardClick`, with `isLeftHalf` for the side of the card clicked:
     * question side, left previous and right flip; answer side, left turns
     * the card back and right goes on.
     */
    method HandleCardClick(isLeftHalf: bool)
      requires Valid()
      modifies this
      ensures Valid()
      ensures !old(isFlipped) && isLeftHalf ==> MovedPrevious()
      ensures !old(isFlipped) && !isLeftHalf ==> Flipped()
      ensures old(isFlipped) && isLeftHalf ==>
                !isFlipped && currentIndex == old(currentIndex) && studiedCards == old(studiedCards) &&
                filteredQuestions == old(filteredQuestions) && currentFilter == old(currentFilter) &&
                questions == old(questions)
      ensures old(isFlipped) && !isLeftHalf ==> MovedNext()
    {
      if !isFlipped {
        if isLeftHalf {
          PreviousCard();
        } else {
          FlipCard();
        }
      } else {
        if isLeftHalf {
          isFlipped := false;
        } else {
          NextCard();
        }
      }
    }

    /** The `keydown` handler: arrows move, the space bar flips, other keys do nothing. */
    method HandleKeyDown(key: string)
      requires Valid()
      modifies this
      ensures Valid()
      ensures key == "ArrowRight" ==> MovedNext()
      ensures key == "ArrowLeft" ==> MovedPrevious()
      ensures key == " " ==> Flipped()
      ensures key != "ArrowRight" && key != "ArrowLeft" && key != " " ==> Unchanged()
    {
      if key == "ArrowRight" {
        NextCard();
      }
      if key == "ArrowLeft" {
        PreviousCard();
      }
      if key == " " {
        FlipCard();
      }
    }
  }

  /**
   * A category chosen while the questions load, then the load as written:
   * the filter stays on that category, but the deck holds every loaded
   * question, including `card`, which is of another category.
   */
  method FilterDuringLoad(card: Question) returns (filter: CategoryFilter, deck: seq<Question>)
    requires card.category != Script
    ensures filter == Only(Script) && deck == [card]
    ensures deck[0].category != filter.category
  {
    var page := new Flashcards();
    page.FilterCategory(Only(Script));
    page.Load([card]);
    filter, deck := page.currentFilter, page.filteredQuestions;
  }

  /** The same clicks with the intended load: the deck shows only what the chosen category holds. */
  method FilterDuringLoadFiltered(card: Question) returns (filter: CategoryFilter, deck: seq<Question>)
    requires card.category != Script
    ensures filter == Only(Script) && deck == []
  {
    var page := new Flashcards();
    page.FilterCategory(Only(Script));
    page.LoadFiltered([card]);
    filter, deck := page.currentFilter, page.filteredQuestions;
    assert [card][1..] == [];
  }
}
