/**
 * The test catalogue page of src/pages/Test.tsx: the search over the
 * available tests, the "not found" dialog, and the colour bands and badges
 * used to display tests.
 */
module TestCatalogue {
  import opened Text
  import opened Seqs

  /** One test offered on the "Explore Tests" tab. */
  datatype CatalogueTest = CatalogueTest(
    id: nat,
    title: string,
    description: string,
    questionCount: nat,
    estimatedTime: string,
    level: string)

  /** The tests the page offers, in display order. */
  const AllTests: seq<CatalogueTest> := [
    CatalogueTest(1, "JavaScript Fundamentals",
      "Test your knowledge of JavaScript basics including variables, functions, and control flow",
      30, "25 min", "Beginner"),
    CatalogueTest(2, "React Development",
      "Assess your React skills including components, hooks, and state management",
      25, "30 min", "Intermediate"),
    CatalogueTest(3, "UX Design Principles",
      "Evaluate your understanding of user experience design concepts and best practices",
      20, "20 min", "Beginner"),
    CatalogueTest(4, "Advanced Data Structures",
      "Challenge yourself with complex algorithms and data structure problems",
      15, "40 min", "Advanced")
  ]

  /** The level filter's value that imposes no restriction. */
  const AnyLevel := "all"

  /** The lower-cased title or description contains the lower-cased query. */
  predicate MatchesSearch(test: CatalogueTest, query: string) {
    || Includes(ToLower(test.title), ToLower(query))
    || Includes(ToLower(test.description), ToLower(query))
  }

  /** "all" admits every level; any other value only that exact level. */
  predicate MatchesLevel(test: CatalogueTest, levelFilter: string) {
    levelFilter == AnyLevel || test.level == levelFilter
  }

  predicate Selected(test: CatalogueTest, query: string, levelFilter: string) {
    MatchesSearch(test, query) && MatchesLevel(test, levelFilter)
  }

  /** No test matches both the search and the level filter. */
  predicate NoneSelected(tests: seq<CatalogueTest>, query: string, levelFilter: string) {
    forall i :: 0 <= i < |tests| ==> !Selected(tests[i], query, levelFilter)
  }

  /** `filteredTests`: the tests that match both the search and the level filter, in order. */
  function FilteredTests(tests: seq<CatalogueTest>, query: string, levelFilter: string): (r: seq<CatalogueTest>)
    ensures IsSubsequence(r, tests)
    ensures forall i :: 0 <= i < |r| ==> r[i] in tests && Selected(r[i], query, levelFilter)
    ensures forall i :: 0 <= i < |tests| && Selected(tests[i], query, levelFilter) ==> tests[i] in r
    ensures forall t :: multiset(r)[t] == if Selected(t, query, levelFilter) then multiset(tests)[t] else 0
    ensures r == [] <==> NoneSelected(tests, query, levelFilter)
  {
    var r := Filter(tests, t => Selected(t, query, levelFilter));
    FilterCounts(tests, t => Selected(t, query, levelFilter));
    assert r != [] ==> r[0] in tests;
    r
  }

  /** With an empty query and the "all" level, every test is shown. */
  lemma EmptySearchShowsAll(tests: seq<CatalogueTest>)
    ensures FilteredTests(tests, "", AnyLevel) == tests
  {
    forall i | 0 <= i < |tests| ensures Selected(tests[i], "", AnyLevel) {
      IncludesEmpty(ToLower(tests[i].title));
    }
    FilterKeepsAll(tests, t => Selected(t, "", AnyLevel));
  }

  /** The search ignores the case of the query: a lower-cased query selects the same tests. */
  lemma SearchIgnoresQueryCase(tests: seq<CatalogueTest>, query: string, levelFilter: string)
    ensures FilteredTests(tests, ToLower(query), levelFilter) == FilteredTests(tests, query, levelFilter)
  {
    ToLowerIdempotent(query);
    FilterSamePredicate(tests, t => Selected(t, ToLower(query), levelFilter), t => Selected(t, query, levelFilter));
  }

  /** Choosing a level only narrows the "all" result, keeping its order. */
  lemma LevelNarrowsAll(tests: seq<CatalogueTest>, query: string, levelFilter: string)
    ensures IsSubsequence(FilteredTests(tests, query, levelFilter), FilteredTests(tests, query, AnyLevel))
  {
    FilterMonotone(tests, t => Selected(t, query, levelFilter), t => Selected(t, query, AnyLevel));
  }

  /** The condition under which `handleSearch` opens the dialog: the trimmed query is not empty and no test is shown. */
  function SearchOpensDialog(tests: seq<CatalogueTest>, query: string, levelFilter: string): bool {
    Trim(query) != [] && |FilteredTests(tests, query, levelFilter)| == 0
  }

  /** The dialog opens exactly when the query is not blank and no test matches it at the chosen level. */
  lemma SearchOpensDialogIff(tests: seq<CatalogueTest>, query: string, levelFilter: string)
    ensures SearchOpensDialog(tests, query, levelFilter) <==> !AllWhitespace(query) && NoneSelected(tests, query, levelFilter)
  {
    TrimEmptyIff(query);
  }

  // ---------------------------------------------------------------------
  // Display helpers
  // ---------------------------------------------------------------------

  /** The colour of a completed test's progress bar. */
  datatype Band = Green | Amber | Red

  /** The colour band of a completed score. */
  function ScoreBand(score: int): (b: Band)
    ensures b == Green <==> score >= 80
    ensures b == Amber <==> 60 <= score < 80
    ensures b == Red <==> score < 60
  {
    if score >= 80 then Green else if score >= 60 then Amber else Red
  }

  /** The check icon next to a completed score. */
  function ShowsCheck(score: int): bool {
    score >= 80
  }

  function BandRank(b: Band): nat {
    match b
    case Red => 0
    case Amber => 1
    case Green => 2
  }

  /** The check icon appears exactly on green scores, and a higher score never gets a worse band. */
  lemma BandsAgreeAndAreMonotone(low: int, high: int)
    requires low <= high
    ensures ShowsCheck(high) <==> ScoreBand(high) == Green
    ensures BandRank(ScoreBand(low)) <= BandRank(ScoreBand(high))
  {
  }

  /** The variant of the level badge on a test card. */
  datatype BadgeVariant = Outline | Secondary | Default

  function LevelBadge(level: string): (v: BadgeVariant)
    ensures v == Outline <==> level == "Beginner"
    ensures v == Secondary <==> level == "Intermediate"
    ensures v == Default <==> level != "Beginner" && level != "Intermediate"
  {
    if level == "Beginner" then Outline
    else if level == "Intermediate" then Secondary
    else Default
  }

  // ---------------------------------------------------------------------
  // The page's state
  // ---------------------------------------------------------------------

  /** The notification shown after a dialog action. */
  datatype Toast = Toast(title: string, description: string)

  /** The search form, the level filter and the "not found" dialog of the page. */
  class CataloguePage {
    const tests: seq<CatalogueTest>
    var searchQuery: string
    var levelFilter: string
    var showNotFoundDialog: bool
    var requestedSkill: string

    /** The tests rendered for the current query and level. */
    function Visible(): seq<CatalogueTest>
      reads this
    {
      FilteredTests(tests, searchQuery, levelFilter)
    }

    /** The page over the catalogue, with an empty search at level "all". */
    constructor ()
      ensures tests == AllTests
      ensures searchQuery == "" && levelFilter == AnyLevel
      ensures !showNotFoundDialog && requestedSkill == ""
    {
      tests := AllTests;
      searchQuery, levelFilter := "", AnyLevel;
      showNotFoundDialog, requestedSkill := false, "";
    }

    /** Typing in the search box. */
    method SetSearchQuery(query: string)
      modifies this`searchQuery
      ensures searchQuery == query
    {
      searchQuery := query;
    }

    /** Choosing a level in the level select. */
    method SetLevelFilter(level: string)
      modifies this`levelFilter
      ensures levelFilter == level
    {
      levelFilter := level;
    }

    /**
     * `handleSearch`: submitting a query that is not blank and that no test
     * matches remembers the query as typed and opens the dialog; any other
     * submission changes nothing.
     */
    method HandleSearch()
      modifies this`requestedSkill, this`showNotFoundDialog
      ensures SearchOpensDialog(tests, searchQuery, levelFilter) ==>
                requestedSkill == searchQuery && showNotFoundDialog
      ensures !SearchOpensDialog(tests, searchQuery, levelFilter) ==>
                requestedSkill == old(requestedSkill) && showNotFoundDialog == old(showNotFoundDialog)
    {
      if SearchOpensDialog(tests, searchQuery, levelFilter) {
        requestedSkill := searchQuery;
        showNotFoundDialog := true;
      }
    }

    /** The "Request Test" button, shown only while no test matches: opens the dialog. */
    method OpenRequestDialog()
      requires Visible() == []
      modifies this`showNotFoundDialog
      ensures showNotFoundDialog
    {
      showNotFoundDialog := true;
    }

    /** The "Clear Search" button, shown only while no test matches: empties the query. */
    method ClearSearch()
      requires Visible() == []
      modifies this`searchQuery
      ensures searchQuery == ""
      ensures levelFilter == AnyLevel ==> Visible() == tests
    {
      searchQuery := "";
      EmptySearchShowsAll(tests);
    }

    /** `handleRequestTest`: confirms the request for the remembered skill and closes the dialog. */
    method HandleRequestTest() returns (toast: Toast)
      modifies this`showNotFoundDialog
      ensures !showNotFoundDialog
      ensures toast == Toast("Test Requested", "We've logged your request for a " + requestedSkill + " skill test.")
    {
      toast := Toast("Test Requested", "We've logged your request for a " + requestedSkill + " skill test.");
      showNotFoundDialog := false;
    }

    /** `handleAddUnverified`: confirms the remembered skill as unverified and closes the dialog. */
    method HandleAddUnverified() returns (toast: Toast)
      modifies this`showNotFoundDialog
      ensures !showNotFoundDialog
      ensures toast == Toast("Skill Added", requestedSkill + " has been added as an unverified skill to your profile.")
    {
      toast := Toast("Skill Added", requestedSkill + " has been added as an unverified skill to your profile.");
      showNotFoundDialog := false;
    }
  }
}
