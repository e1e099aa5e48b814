/** The FAQ page (src/pages/FAQ.jsx): the set of expanded questions, the
    category and search filter over the question list, the popular-questions
    strip and the result count. The question texts themselves are data and
    are taken as a parameter. */
module FaqPage {
  import opened Text
  import opened Seqs

  datatype FaqEntry = FaqEntry(id: int, category: string, question: string, answer: string, tags: seq<string>)

  /** The set `toggleItem` installs: `id` flips, every other id stays. */
  function Toggled(openItems: set<int>, id: int): (r: set<int>)
    ensures id in r <==> id !in openItems
    ensures forall x :: x != id ==> (x in r <==> x in openItems)
  {
    if id in openItems then openItems - {id} else openItems + {id}
  }

  /** Toggling twice restores the open set. */
  lemma ToggleTwice(openItems: set<int>, id: int)
    ensures Toggled(Toggled(openItems, id), id) == openItems
  {
  }

  predicate MatchesCategory(item: FaqEntry, activeCategory: string) {
    activeCategory == "all" || item.category == activeCategory
  }

  /** Some tag contains the term, ignoring case. */
  predicate SomeTagContains(tags: seq<string>, term: string) {
    exists i :: 0 <= i < |tags| && ContainsIgnoreCase(tags[i], term)
  }

  /** The term is empty, or occurs, ignoring case, in the question, the
      answer or one of the tags. The term is not trimmed. */
  predicate MatchesSearch(item: FaqEntry, searchTerm: string) {
    || searchTerm == ""
    || ContainsIgnoreCase(item.question, searchTerm)
    || ContainsIgnoreCase(item.answer, searchTerm)
    || SomeTagContains(item.tags, searchTerm)
  }

  function Shown(activeCategory: string, searchTerm: string): FaqEntry -> bool {
    (item: FaqEntry) => MatchesCategory(item, activeCategory) && MatchesSearch(item, searchTerm)
  }

  /** `filteredFAQs`: the entries that match both the category and the term,
      in list order. */
  function FilteredFaqs(faqData: seq<FaqEntry>, activeCategory: string, searchTerm: string): (r: seq<FaqEntry>)
    ensures forall i :: 0 <= i < |r| ==>
              (r[i] in faqData && MatchesCategory(r[i], activeCategory) && MatchesSearch(r[i], searchTerm))
    ensures forall i :: (0 <= i < |faqData| && MatchesCategory(faqData[i], activeCategory)
                         && MatchesSearch(faqData[i], searchTerm)) ==> faqData[i] in r
    ensures forall x :: multiset(r)[x] ==
              if MatchesCategory(x, activeCategory) && MatchesSearch(x, searchTerm) then multiset(faqData)[x] else 0
  {
    FilterCounts(faqData, Shown(activeCategory, searchTerm));
    Filter(faqData, Shown(activeCategory, searchTerm))
  }

  /** With no category and no term, every entry is listed, in order. */
  lemma UnfilteredListsAll(faqData: seq<FaqEntry>)
    ensures FilteredFaqs(faqData, "all", "") == faqData
  {
    FilterAll(faqData, Shown("all", ""));
  }

  /** The listed entries keep the order of the question list. */
  lemma FilteredKeepsOrder(faqData: seq<FaqEntry>, activeCategory: string, searchTerm: string)
    ensures IsSubsequence(FilteredFaqs(faqData, activeCategory, searchTerm), faqData)
  {
    FilterIsSubsequence(faqData, Shown(activeCategory, searchTerm));
  }

  /** Searching does not depend on the case of the term. */
  lemma SearchIgnoresTermCase(faqData: seq<FaqEntry>, activeCategory: string, a: string, b: string)
    requires Lower(a) == Lower(b)
    ensures FilteredFaqs(faqData, activeCategory, a) == FilteredFaqs(faqData, activeCategory, b)
  {
    FilterExt(faqData, Shown(activeCategory, a), Shown(activeCategory, b));
  }

  /** `popularQuestions`: the first six entries. */
  function PopularQuestions(faqData: seq<FaqEntry>): (r: seq<FaqEntry>)
    ensures |r| == if |faqData| < 6 then |faqData| else 6
    ensures r == faqData[..|r|]
  {
    Take(faqData, 6)
  }

  /** "question" or "questions" after the count. */
  function ResultNoun(count: nat): (r: string)
    ensures r == "question" <==> count == 1
    ensures r == "questions" <==> count != 1
  {
    if count != 1 then "questions" else "question"
  }

  /** The page's state: the search box, the selected category and the set
      of expanded question ids. */
  class FaqPageState {
    var searchTerm: string
    var activeCategory: string
    var openItems: set<int>

    constructor ()
      ensures searchTerm == "" && activeCategory == "all" && openItems == {}
    {
      searchTerm := "";
      activeCategory := "all";
      openItems := {};
    }

    /** `toggleItem`: builds a new set from the current one and installs it. */
    method ToggleItem(id: int)
      modifies this
      ensures openItems == Toggled(old(openItems), id)
      ensures searchTerm == old(searchTerm) && activeCategory == old(activeCategory)
    {
      var newOpenItems := openItems;
      if id in newOpenItems {
        newOpenItems := newOpenItems - {id};
      } else {
        newOpenItems := newOpenItems + {id};
      }
      openItems := newOpenItems;
    }

    method SetSearchTerm(term: string)
      modifies this
      ensures searchTerm == term
      ensures activeCategory == old(activeCategory) && openItems == old(openItems)
    {
      searchTerm := term;
    }

    method SetActiveCategory(category: string)
      modifies this
      ensures activeCategory == category
      ensures searchTerm == old(searchTerm) && openItems == old(openItems)
    {
      activeCategory := category;
    }

    /** The "clear filters" button: empty term, category `'all'`. */
    method ClearFilters()
      modifies this
      ensures searchTerm == "" && activeCategory == "all"
      ensures openItems == old(openItems)
    {
      searchTerm := "";
      activeCategory := "all";
    }

    /** The list the page renders for the current filters: the whole list
        while no filter is set. */
    function Filtered(faqData: seq<FaqEntry>): (r: seq<FaqEntry>)
      reads this
      ensures searchTerm == "" && activeCategory == "all" ==> r == faqData
    {
      UnfilteredListsAll(faqData);
      FilteredFaqs(faqData, activeCategory, searchTerm)
    }
  }
}
