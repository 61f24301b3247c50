/** The event catalog page: a hard-coded list filtered on the client by a
    search term and a category button. */
module Catalog {
  import opened Seqs
  import opened Text

  /** One catalog entry, with the fields the page's list literal gives it. */
  datatype Event = Event(
    id: int,
    title: string,
    shortDesc: string,
    fullDesc: string,
    price: string,
    date: string,
    location: string,
    image: string,
    category: string)

  /** The list the page filters; it never asks the backend for events. */
  const AllEvents: seq<Event> := [
    Event(1, "Summer Music Festival 2024", "3-day outdoor music festival featuring top artists",
      "Join us for an unforgettable 3-day music festival featuring performances from over 50 artists across multiple stages. Experience diverse genres from rock to electronic, enjoy food from local vendors, and camp under the stars with thousands of music lovers.",
      "$199", "July 15-17, 2024", "Central Park, NYC", "🎵", "Music"),
    Event(2, "Tech Conference 2024", "Annual technology and innovation summit",
      "Connect with industry leaders, attend workshops on cutting-edge technologies, and discover the latest innovations shaping our future. Network with 5000+ attendees, participate in hackathons, and gain insights from keynote speakers from Fortune 500 companies.",
      "$299", "August 5-7, 2024", "Convention Center, SF", "💻", "Conference"),
    Event(3, "Food & Wine Expo", "Gourmet food tasting and wine pairing event",
      "Indulge in exquisite culinary experiences with renowned chefs, sommelier-guided wine tastings, live cooking demonstrations, and exclusive meet-and-greets with celebrity chefs. Discover new flavors and culinary trends in this premium food celebration.",
      "$89", "September 12, 2024", "Grand Hotel, Chicago", "🍷", "Food"),
    Event(4, "Marathon Championship", "International marathon race with prizes",
      "Challenge yourself in this internationally recognized marathon featuring professional and amateur categories. Run through scenic city routes, compete for prizes totaling $100,000, and join a community of passionate runners from around the globe.",
      "$45", "October 1, 2024", "Downtown, Boston", "🏃", "Sports"),
    Event(5, "Art Gallery Exhibition", "Contemporary art showcase by emerging artists",
      "Immerse yourself in contemporary art with works from 30+ emerging artists. This curated exhibition features paintings, sculptures, digital art, and interactive installations. Meet the artists, attend guided tours, and purchase unique pieces directly from creators.",
      "$25", "November 10-20, 2024", "Modern Art Museum, LA", "🎨", "Art"),
    Event(6, "Comedy Night Special", "Stand-up comedy show with top comedians",
      "Laugh the night away with performances from award-winning comedians. This special show features 5 comedians performing their best material in an intimate venue. Includes VIP meet-and-greet options and exclusive backstage access packages.",
      "$55", "December 5, 2024", "Comedy Club, Austin", "😂", "Entertainment")
  ]

  /** The labels of the category buttons, in display order. */
  const Categories: seq<string> := ["All", "Music", "Conference", "Food", "Sports", "Art", "Entertainment"]

  /** The search test: the lowercased term occurs in the lowercased title or
      the lowercased category. */
  predicate MatchesSearch(e: Event, searchTerm: string)
  {
    Includes(Lower(e.title), Lower(searchTerm)) || Includes(Lower(e.category), Lower(searchTerm))
  }

  /** The category test: no category selected, or an exact, case-sensitive match. */
  predicate MatchesCategory(e: Event, selectedCategory: string)
  {
    selectedCategory == "" || e.category == selectedCategory
  }

  /** The events the page shows for the current search term and category. */
  function FilteredEvents(events: seq<Event>, searchTerm: string, selectedCategory: string): (r: seq<Event>)
    ensures forall e :: e in r <==> e in events && MatchesSearch(e, searchTerm) && MatchesCategory(e, selectedCategory)
    ensures selectedCategory != "" ==> forall i :: 0 <= i < |r| ==> r[i].category == selectedCategory
  {
    Filter(events, e => MatchesSearch(e, searchTerm) && MatchesCategory(e, selectedCategory))
  }

  /** The shown list is a subsequence of the input: order kept, nothing new,
      and each event appears exactly as often as in the input if it passes
      both tests, and not at all otherwise. */
  lemma FilteredIsOrderedSelection(events: seq<Event>, searchTerm: string, selectedCategory: string, e: Event)
    ensures IsSubsequence(FilteredEvents(events, searchTerm, selectedCategory), events)
    ensures multiset(FilteredEvents(events, searchTerm, selectedCategory))[e] ==
      if MatchesSearch(e, searchTerm) && MatchesCategory(e, selectedCategory) then multiset(events)[e] else 0
  {
    var p := (x: Event) => MatchesSearch(x, searchTerm) && MatchesCategory(x, selectedCategory);
    FilterIsSubsequence(events, p);
    FilterCounts(events, p, e);
  }

  /** With no search term and no category every event is shown, in order. */
  lemma NoFilterShowsEverything(events: seq<Event>)
    ensures FilteredEvents(events, "", "") == events
  {
    forall e | e in events
      ensures MatchesSearch(e, "")
    {
      EmptyIncluded(Lower(e.title));
    }
    FilterAllPass(events, (x: Event) => MatchesSearch(x, "") && MatchesCategory(x, ""));
  }

  /** The search test is exactly "the lowercased term occurs at some position
      of the lowercased title or of the lowercased category". */
  lemma MatchesSearchIff(e: Event, searchTerm: string)
    ensures MatchesSearch(e, searchTerm) <==>
      (exists k :: OccursAt(Lower(e.title), Lower(searchTerm), k)) ||
      (exists k :: OccursAt(Lower(e.category), Lower(searchTerm), k))
  {
    IncludesIff(Lower(e.title), Lower(searchTerm));
    IncludesIff(Lower(e.category), Lower(searchTerm));
  }

  /** An event of the input that is not shown fails the search test or the
      category test. */
  lemma DroppedFailsATest(events: seq<Event>, searchTerm: string, selectedCategory: string, e: Event)
    requires e in events && e !in FilteredEvents(events, searchTerm, selectedCategory)
    ensures !MatchesSearch(e, searchTerm) || !MatchesCategory(e, selectedCategory)
  {
  }

  /** The category a button press selects: "All" selects none. */
  function ButtonCategory(button: string): (selected: string)
    ensures selected == "" <==> button == "All" || button == ""
    ensures selected != "" ==> selected == button
  {
    if button == "All" then "" else button
  }

  /** After pressing "All" the category test passes for every event, so only
      the search test decides. */
  lemma AllButtonDisablesCategory(events: seq<Event>, searchTerm: string, e: Event)
    ensures e in FilteredEvents(events, searchTerm, ButtonCategory("All")) <==> e in events && MatchesSearch(e, searchTerm)
  {
  }

  /** Whether a button is drawn as the selected one. */
  predicate Highlighted(button: string, selectedCategory: string)
  {
    (button == "All" && selectedCategory == "") || selectedCategory == button
  }

  /** The number of buttons drawn as selected. */
  function HighlightCount(labels: seq<string>, selectedCategory: string): nat
  {
    if labels == [] then 0
    else (if Highlighted(labels[0], selectedCategory) then 1 else 0) + HighlightCount(labels[1..], selectedCategory)
  }

  /** After a press on button `pressed`, that button and no other is drawn as
      selected, whenever the labels are distinct and none is empty. */
  lemma {:induction false} PressHighlightsOnlyItself(labels: seq<string>, pressed: string)
    requires pressed in labels && "" !in labels
    requires forall i, j :: 0 <= i < j < |labels| ==> labels[i] != labels[j]
    ensures forall l :: l in labels ==> (Highlighted(l, ButtonCategory(pressed)) <==> l == pressed)
    ensures HighlightCount(labels, ButtonCategory(pressed)) == 1
  {
    var sel := ButtonCategory(pressed);
    assert forall l :: l != "" ==> (Highlighted(l, sel) <==> l == pressed);
    HighlightCountIsOccurrences(labels, pressed, sel);
  }

  lemma {:induction false} HighlightCountIsOccurrences(labels: seq<string>, pressed: string, sel: string)
    requires "" !in labels
    requires forall i, j :: 0 <= i < j < |labels| ==> labels[i] != labels[j]
    requires forall l :: l != "" ==> (Highlighted(l, sel) <==> l == pressed)
    ensures HighlightCount(labels, sel) == if pressed in labels then 1 else 0
  {
    if labels != [] {
      HighlightCountIsOccurrences(labels[1..], pressed, sel);
      if labels[0] == pressed {
        assert pressed !in labels[1..] by {
          forall j | 0 <= j < |labels[1..]| ensures labels[1..][j] != pressed {
            assert labels[0] != labels[j + 1];
          }
        }
      }
    }
  }

  /** Every press on one of the page's category buttons leaves exactly one
      button highlighted: the one pressed. */
  lemma CategoryPressHighlightsOne(pressed: string)
    requires pressed in Categories
    ensures HighlightCount(Categories, ButtonCategory(pressed)) == 1
    ensures forall l :: l in Categories ==> (Highlighted(l, ButtonCategory(pressed)) <==> l == pressed)
  {
    PressHighlightsOnlyItself(Categories, pressed);
  }

  /** Whether the page shows "No events found matching your search." */
  predicate ShowsEmptyState(events: seq<Event>, searchTerm: string, selectedCategory: string)
  {
    |FilteredEvents(events, searchTerm, selectedCategory)| == 0
  }

  /** The empty state is shown exactly when no event passes both tests. */
  lemma EmptyStateIff(events: seq<Event>, searchTerm: string, selectedCategory: string)
    ensures ShowsEmptyState(events, searchTerm, selectedCategory) <==>
      forall e :: e in events ==> !(MatchesSearch(e, searchTerm) && MatchesCategory(e, selectedCategory))
  {
    FilterEmptyIff(events, (x: Event) => MatchesSearch(x, searchTerm) && MatchesCategory(x, selectedCategory));
  }

  /** On first render (empty term, no category) the page lists all six events. */
  lemma InitialPageShowsAll()
    ensures FilteredEvents(AllEvents, "", "") == AllEvents
    ensures !ShowsEmptyState(AllEvents, "", "")
  {
    NoFilterShowsEverything(AllEvents);
  }

  /** Pressing "Music" with an empty search shows the festival alone. */
  lemma MusicButtonShowsFestival()
    ensures FilteredEvents(AllEvents, "", ButtonCategory("Music")) == [AllEvents[0]]
  {
    var p := (x: Event) => MatchesSearch(x, "") && MatchesCategory(x, "Music");
    forall e | e in AllEvents
      ensures MatchesSearch(e, "")
    {
      EmptyIncluded(Lower(e.title));
    }
    assert p(AllEvents[0]);
    assert Filter(AllEvents[1..], p) == [] by {
      FilterEmptyIff(AllEvents[1..], p);
    }
  }
}
