/**
 * The question library screen: a fixed list of pre-approved questions,
 * narrowed by a case-insensitive title search and a category chip.
 */
module Library {
  import opened Wrappers
  import opened Strings
  import opened Seqs

  datatype LibraryQuestion = LibraryQuestion(
    id: string,
    title: string,
    qtype: string,
    category: string,
    options: Option<seq<string>>,
    used: nat)

  const AllCategories := "All"

  const Categories: seq<string> := ["All", "Demographics", "Income", "Housing", "Education", "Health", "Employment"]

  const LibraryQuestions: seq<LibraryQuestion> := [
    LibraryQuestion("1", "What is your age group?", "Radio", "Demographics",
                    Some(["18-25", "26-35", "36-45", "46-55", "55+"]), 1247),
    LibraryQuestion("2", "What is your monthly household income?", "Radio", "Income",
                    Some(["Below ₹25,000", "₹25,000-₹50,000", "₹50,000-₹1,00,000", "Above ₹1,00,000"]), 892),
    LibraryQuestion("3", "What type of dwelling do you live in?", "Radio", "Housing",
                    Some(["Independent House", "Apartment", "Slum", "Other"]), 654),
    LibraryQuestion("4", "What is your highest level of education?", "Radio", "Education",
                    Some(["Primary", "Secondary", "Graduate", "Post-graduate", "Professional"]), 543)
  ]

  /** `matchesSearch && matchesCategory`. */
  predicate Matches(q: LibraryQuestion, query: string, category: string) {
    && Contains(ToLower(q.title), ToLower(query))
    && (category == AllCategories || q.category == category)
  }

  function SearchTest(query: string, category: string): LibraryQuestion -> bool {
    (q: LibraryQuestion) => Matches(q, query, category)
  }

  /** `filteredQuestions`. */
  function Filtered(lib: seq<LibraryQuestion>, query: string, category: string): (r: seq<LibraryQuestion>)
    ensures |r| <= |lib|
    ensures forall i :: 0 <= i < |r| ==> r[i] in lib && Matches(r[i], query, category)
    ensures forall i :: 0 <= i < |lib| ==> (lib[i] in r <==> Matches(lib[i], query, category))
  {
    Filter(lib, SearchTest(query, category))
  }

  /** The result keeps library order. */
  lemma FilteredInOrder(lib: seq<LibraryQuestion>, query: string, category: string)
    ensures IsSubseq(Filtered(lib, query, category), lib)
  {
    FilterIsSubseq(lib, SearchTest(query, category));
  }

  /** An empty search under "All" keeps the whole library. */
  lemma EmptySearchKeepsAll(lib: seq<LibraryQuestion>)
    ensures Filtered(lib, "", AllCategories) == lib
  {
    forall i | 0 <= i < |lib| ensures Matches(lib[i], "", AllCategories) {
      assert OccursAt(ToLower(lib[i].title), "", 0);
    }
    FilterKeepsAll(lib, SearchTest("", AllCategories));
  }

  /** A search matches regardless of the case the query is typed in. */
  lemma SearchIgnoresQueryCase(lib: seq<LibraryQuestion>, query: string, category: string)
    ensures Filtered(lib, ToLower(query), category) == Filtered(lib, query, category)
  {
    assert ToLower(ToLower(query)) == ToLower(query);
    FilterSame(lib, SearchTest(ToLower(query), category), SearchTest(query, category));
  }

  /** Picking the housing chip with no search leaves just the dwelling question. */
  lemma HousingChip()
    ensures Filtered(LibraryQuestions, "", "Housing") == [LibraryQuestions[2]]
  {
    var lib := LibraryQuestions;
    assert OccursAt(ToLower(lib[2].title), "", 0);
    assert Filter(lib[3..], SearchTest("", "Housing")) == [];
    assert Filter(lib[2..], SearchTest("", "Housing")) == [lib[2]];
    assert Filter(lib[1..], SearchTest("", "Housing")) == [lib[2]];
  }

  /**
   * The chip row: "All" first, and every library question sits under one of
   * the other chips, which with an empty search shows it.
   */
  lemma ChipsCoverLibrary()
    ensures Categories[0] == AllCategories
    ensures forall i :: 0 <= i < |LibraryQuestions| ==>
              && LibraryQuestions[i].category in Categories[1..]
              && LibraryQuestions[i] in Filtered(LibraryQuestions, "", LibraryQuestions[i].category)
  {
    var lib := LibraryQuestions;
    forall i | 0 <= i < |lib|
      ensures lib[i].category in Categories[1..]
      ensures lib[i] in Filtered(lib, "", lib[i].category)
    {
      assert OccursAt(ToLower(lib[i].title), "", 0);
      assert Categories[1..][i] == lib[i].category;
    }
  }
}
