/**
 * The skill marketplace of src/pages/Marketplace.tsx: the listing filter
 * driven by the search box and the three select boxes, the "Verified Only"
 * and "Recommended" tabs, and the star row of a listing card.
 *
 * Ratings are kept in tenths of a star (4.8 is 48), which represents every
 * rating the page holds exactly.
 */
module Marketplace {
  import opened Text
  import opened Seqs

  datatype User = User(name: string, rating: int, verified: bool)

  datatype Offering = Offering(skill: string, level: string, category: string)

  /** One skill-swap listing. */
  datatype Listing = Listing(
    id: nat,
    user: User,
    offering: Offering,
    seeking: seq<string>,
    mode: string,
    location: string)

  /** The listings the page shows, in display order (avatars left out). */
  const SkillListings: seq<Listing> := [
    Listing(1, User("Emily Chen", 49, true), Offering("UX Design", "Advanced", "Design"),
            ["Python", "Data Analysis"], "Both", "San Francisco, CA"),
    Listing(2, User("Marcus Johnson", 47, true), Offering("JavaScript", "Advanced", "Programming"),
            ["Digital Marketing", "Content Writing"], "Online", "Remote"),
    Listing(3, User("Sophia Williams", 48, false), Offering("Spanish Language", "Intermediate", "Languages"),
            ["English Grammar", "Essay Writing"], "In-Person", "Boston, MA"),
    Listing(4, User("Raj Patel", 50, true), Offering("Financial Modeling", "Advanced", "Finance"),
            ["Mobile App Development", "UI/UX Design"], "Online", "Remote"),
    Listing(5, User("Olivia Martinez", 46, true), Offering("Guitar Lessons", "Beginner", "Music"),
            ["Photography", "Video Editing"], "Both", "Chicago, IL"),
    Listing(6, User("Liam Wilson", 45, false), Offering("Data Science", "Intermediate", "Technology"),
            ["Public Speaking", "Presentation Skills"], "Online", "Remote")
  ]

  const AllCategories := "All Categories"
  const AllLevels := "All Levels"
  const AllModes := "All Modes"

  /** The choices of the three select boxes; the first of each is its "no restriction" sentinel. */
  const Categories: seq<string> := [AllCategories, "Technology", "Design", "Languages", "Music", "Art",
                                    "Business", "Finance", "Marketing", "Health & Fitness", "Academic"]
  const Levels: seq<string> := [AllLevels, "Beginner", "Intermediate", "Advanced"]
  const Modes: seq<string> := [AllModes, "Online", "In-Person", "Both"]

  /** The search box and the three selections. */
  datatype Filters = Filters(query: string, category: string, level: string, mode: string)

  /** The filters the page starts with. */
  const NoFilters := Filters("", AllCategories, AllLevels, AllModes)

  /** The lower-cased skill offered or user name contains the lower-cased query. */
  predicate MatchesSearch(listing: Listing, query: string) {
    || Includes(ToLower(listing.offering.skill), ToLower(query))
    || Includes(ToLower(listing.user.name), ToLower(query))
  }

  predicate MatchesCategory(listing: Listing, category: string) {
    category == AllCategories || listing.offering.category == category
  }

  predicate MatchesLevel(listing: Listing, level: string) {
    level == AllLevels || listing.offering.level == level
  }

  predicate MatchesMode(listing: Listing, mode: string) {
    mode == AllModes || listing.mode == mode
  }

  /** A listing passes all four filters. */
  predicate Selected(listing: Listing, f: Filters) {
    && MatchesSearch(listing, f.query)
    && MatchesCategory(listing, f.category)
    && MatchesLevel(listing, f.level)
    && MatchesMode(listing, f.mode)
  }

  /** `filteredListings`: the listings passing every filter, in their original order. */
  function FilteredListings(listings: seq<Listing>, f: Filters): (r: seq<Listing>)
    ensures IsSubsequence(r, listings)
    ensures forall i :: 0 <= i < |r| ==> r[i] in listings && Selected(r[i], f)
    ensures forall i :: 0 <= i < |listings| && Selected(listings[i], f) ==> listings[i] in r
    ensures forall l :: multiset(r)[l] == if Selected(l, f) then multiset(listings)[l] else 0
  {
    FilterCounts(listings, l => Selected(l, f));
    Filter(listings, l => Selected(l, f))
  }

  /** The "Verified Only" tab: the filtered listings of verified users. */
  function VerifiedTab(filtered: seq<Listing>): (r: seq<Listing>)
    ensures IsSubsequence(r, filtered)
    ensures forall i :: 0 <= i < |r| ==> r[i] in filtered && r[i].user.verified
    ensures forall i :: 0 <= i < |filtered| && filtered[i].user.verified ==> filtered[i] in r
    ensures forall l :: multiset(r)[l] == if l.user.verified then multiset(filtered)[l] else 0
  {
    FilterCounts(filtered, (l: Listing) => l.user.verified);
    Filter(filtered, (l: Listing) => l.user.verified)
  }

  /** The rating from which a listing is recommended: 4.8 stars. */
  const RecommendedRating := 48

  /** The "Recommended" tab: the filtered listings rated 4.8 or more. */
  function RecommendedTab(filtered: seq<Listing>): (r: seq<Listing>)
    ensures IsSubsequence(r, filtered)
    ensures forall i :: 0 <= i < |r| ==> r[i] in filtered && r[i].user.rating >= RecommendedRating
    ensures forall i :: 0 <= i < |filtered| && filtered[i].user.rating >= RecommendedRating ==> filtered[i] in r
    ensures forall l :: multiset(r)[l] == if l.user.rating >= RecommendedRating then multiset(filtered)[l] else 0
  {
    FilterCounts(filtered, (l: Listing) => l.user.rating >= RecommendedRating);
    Filter(filtered, (l: Listing) => l.user.rating >= RecommendedRating)
  }

  /** The "Verified Only" tab is the single filter "passes every filter and is verified". */
  lemma VerifiedTabIsOneFilter(listings: seq<Listing>, f: Filters)
    ensures VerifiedTab(FilteredListings(listings, f)) == Filter(listings, l => Selected(l, f) && l.user.verified)
  {
    FilterFilter(listings, l => Selected(l, f), (l: Listing) => l.user.verified,
                 l => Selected(l, f) && l.user.verified);
  }

  /** The "Recommended" tab is the single filter "passes every filter and is rated 4.8 or more". */
  lemma RecommendedTabIsOneFilter(listings: seq<Listing>, f: Filters)
    ensures RecommendedTab(FilteredListings(listings, f))
              == Filter(listings, l => Selected(l, f) && l.user.rating >= RecommendedRating)
  {
    FilterFilter(listings, l => Selected(l, f), (l: Listing) => l.user.rating >= RecommendedRating,
                 l => Selected(l, f) && l.user.rating >= RecommendedRating);
  }

  /** With an empty search and the three sentinels, every listing is shown. */
  lemma NoFiltersShowAll(listings: seq<Listing>)
    ensures FilteredListings(listings, NoFilters) == listings
  {
    forall i | 0 <= i < |listings| ensures Selected(listings[i], NoFilters) {
      IncludesEmpty(ToLower(listings[i].offering.skill));
    }
    FilterKeepsAll(listings, l => Selected(l, NoFilters));
  }

  /**
   * Each sentinel lifts its restriction: resetting a select box to its
   * sentinel keeps every listing shown before, in the same order.
   */
  lemma SentinelsWiden(listings: seq<Listing>, f: Filters)
    ensures IsSubsequence(FilteredListings(listings, f), FilteredListings(listings, f.(category := AllCategories)))
    ensures IsSubsequence(FilteredListings(listings, f), FilteredListings(listings, f.(level := AllLevels)))
    ensures IsSubsequence(FilteredListings(listings, f), FilteredListings(listings, f.(mode := AllModes)))
  {
    Widens(listings, f, f.(category := AllCategories));
    Widens(listings, f, f.(level := AllLevels));
    Widens(listings, f, f.(mode := AllModes));
  }

  /** Weaker filters keep everything stronger ones keep. */
  lemma Widens(listings: seq<Listing>, f: Filters, g: Filters)
    requires forall l :: Selected(l, f) ==> Selected(l, g)
    ensures IsSubsequence(FilteredListings(listings, f), FilteredListings(listings, g))
  {
    FilterMonotone(listings, l => Selected(l, f), l => Selected(l, g));
  }

  /**
   * The JavaScript listing's category, "Programming", is not among the
   * categories offered, so it is shown only while "All Categories" is chosen.
   */
  lemma ProgrammingListingNeedsAllCategories(f: Filters)
    requires f.category in Categories && f.category != AllCategories
    ensures !Selected(SkillListings[1], f)
  {
  }

  /** Every listing's level and mode is among the choices of the level and mode select boxes. */
  lemma ListingLevelsAndModesOffered()
    ensures forall k :: 0 <= k < |SkillListings| ==>
              SkillListings[k].offering.level in Levels && SkillListings[k].mode in Modes
  {
  }

  // ---------------------------------------------------------------------
  // The star row of a listing card
  // ---------------------------------------------------------------------

  /** The five stars; star `i` is filled when `i < Math.floor(rating)` (division by ten floors, as Math.floor does). */
  function Stars(rating: int): (stars: seq<bool>)
    ensures |stars| == 5
  {
    seq(5, i => i < rating / 10)
  }

  /** The number of filled stars in a row. */
  function CountFilled(stars: seq<bool>): (n: nat)
    ensures n <= |stars|
  {
    if stars == [] then 0 else CountFilled(stars[..|stars| - 1]) + (if stars[|stars| - 1] then 1 else 0)
  }

  /** The first `k` stars of a row filled below `whole`. */
  lemma {:induction false} FilledPrefix(whole: int, k: nat)
    requires k <= 5
    ensures CountFilled(Stars(whole * 10)[..k]) == if whole < 0 then 0 else if whole > k then k else whole
  {
    var stars := Stars(whole * 10);
    if k > 0 {
      FilledPrefix(whole, k - 1);
      assert stars[..k][..k - 1] == stars[..k - 1];
    }
  }

  /** Exactly `floor(rating)` of the five stars are filled, clamped to the range 0..5. */
  lemma FilledStarCount(rating: int)
    ensures CountFilled(Stars(rating)) == if rating / 10 < 0 then 0 else if rating / 10 > 5 then 5 else rating / 10
  {
    var whole := rating / 10;
    assert Stars(rating) == Stars(whole * 10);
    FilledPrefix(whole, 5);
    assert Stars(rating)[..5] == Stars(rating);
  }
}
