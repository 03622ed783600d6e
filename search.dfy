/**
 * The search palette (src/components/GlobalSearch.tsx): a fixed table of
 * sections, projects, skills and contact links; a query whose changes
 * re-filter the table; a selected index moved by the arrow keys; and the
 * routing of a chosen result.
 *
 * The browser effects of a chosen result (`window.open`, `scrollIntoView`,
 * `location.href`) are returned as a `Navigation` value instead of being
 * performed. Icons are not modelled.
 */
module Search {
  import opened Wrappers
  import opened Text
  import opened Seqs

  datatype Kind = Section | Project | Skill | ContactLink

  datatype Item = Item(id: string, title: string, description: string, kind: Kind, url: string)

  /** `searchData`, in table order. */
  const SearchData: seq<Item> := [
    Item("home", "Home", "Main landing page with introduction", Section, "#home"),
    Item("about", "About Me", "Learn more about Nicolas and his background", Section, "#about"),
    Item("skills", "Skills", "Technical and soft skills showcase", Section, "#skills"),
    Item("projects", "Projects", "Portfolio of completed projects", Section, "#projects"),
    Item("contact", "Contact", "Get in touch with Nicolas", Section, "#contact"),
    Item("juntea", "Juntea - Events App", "Mobile app for event management built with Flutter", Project, "#projects"),
    Item("chapiri", "Chapiri E-commerce", "Full-stack e-commerce platform with React and Node.js", Project, "#projects"),
    Item("goblin-attack", "Goblin Attack", "2D platformer game developed with Unity and C#", Project, "#projects"),
    Item("react", "React", "Frontend library for building user interfaces", Skill, "#skills"),
    Item("typescript", "TypeScript", "Typed superset of JavaScript", Skill, "#skills"),
    Item("nodejs", "Node.js", "JavaScript runtime for server-side development", Skill, "#skills"),
    Item("python", "Python", "High-level programming language", Skill, "#skills"),
    Item("email", "Email", "nicolas.paniagua05f@gmail.com", ContactLink, "mailto:nicolas.paniagua05f@gmail.com"),
    Item("github", "GitHub", "View repositories and contributions", ContactLink, "https://github.com/nicolas-netizen"),
    Item("linkedin", "LinkedIn", "Professional network profile", ContactLink, "https://www.linkedin.com/in/nicolas-paniagua-80150a256")]

  /** The filter test: the lower-cased query occurs in the lower-cased title or description. */
  predicate Matches(item: Item, query: string) {
    Includes(Lower(item.title), Lower(query)) || Includes(Lower(item.description), Lower(query))
  }

  /** `searchData.filter(...)` for one query. */
  function Matching(data: seq<Item>, query: string): seq<Item> {
    Filter(data, item => Matches(item, query))
  }

  /**
   * The result list the filter effect leaves for a query: none for a blank
   * query. The source tests `query.trim() === ''`; `TrimEmptyIff` shows
   * that this is `AllSpace(query)`.
   */
  function Results(data: seq<Item>, query: string): seq<Item> {
    if AllSpace(query) then [] else Matching(data, query)
  }

  /**
   * A query whose trim is empty has no results; any other query has exactly
   * the table items that match it, and never more items than the table.
   */
  lemma ResultsSpec(data: seq<Item>, query: string)
    ensures Trim(query) == [] ==> Results(data, query) == []
    ensures Trim(query) != [] ==>
      forall x :: x in Results(data, query) <==> x in data && Matches(x, query)
    ensures |Results(data, query)| <= |data|
  {
    TrimEmptyIff(query);
  }

  /** A blank query has no results, whatever the table. */
  lemma NoResultsWhenBlank(data: seq<Item>, query: string)
    requires AllSpace(query)
    ensures Results(data, query) == []
  {
  }

  /** Results keep table order: filtering a table in two parts filters each part in turn. */
  lemma ResultsInTableOrder(a: seq<Item>, b: seq<Item>, query: string)
    ensures Results(a + b, query) == Results(a, query) + Results(b, query)
  {
    FilterAppend(a, b, item => Matches(item, query));
  }

  /** Matching ignores the case of the query. */
  lemma MatchesIgnoresCase(item: Item, query: string)
    ensures Matches(item, Lower(query)) == Matches(item, query)
  {
    LowerIsLower(query);
    LowerOfLower(Lower(query));
  }

  /** What choosing a result does in the browser. */
  datatype Navigation = OpenTab(url: string) | ScrollTo(selector: string) | Assign(url: string)

  /** The address a navigation goes to. */
  function Target(n: Navigation): string {
    match n
    case OpenTab(u) => u
    case ScrollTo(s) => s
    case Assign(u) => u
  }

  /** The routing of `handleResultClick`. */
  function Route(r: Item): (n: Navigation)
    ensures Target(n) == r.url
    ensures n.OpenTab? <==> r.kind == ContactLink && StartsWith(r.url, "http")
    ensures n.ScrollTo? <==> !(r.kind == ContactLink && StartsWith(r.url, "http")) && StartsWith(r.url, "#")
  {
    if r.kind == ContactLink && StartsWith(r.url, "http") then OpenTab(r.url)
    else if StartsWith(r.url, "#") then ScrollTo(r.url)
    else Assign(r.url)
  }

  /** A URL that starts with `#` never opens a tab: it scrolls whatever the item's kind. */
  lemma HashScrolls(r: Item)
    requires StartsWith(r.url, "#")
    ensures Route(r) == ScrollTo(r.url)
  {
    assert r.url[0] == '#';
  }

  /** `ArrowDown`: one down, but never past the last result (-1 when there are none). */
  function Down(i: int, count: nat): (j: int)
    ensures j <= count - 1
    ensures j == i + 1 || j == count - 1
  {
    if i + 1 < count - 1 then i + 1 else count - 1
  }

  /** `ArrowUp`: one up, but never below 0. */
  function Up(i: int): (j: int)
    ensures j >= 0
    ensures j == i - 1 || j == 0
  {
    if i - 1 > 0 then i - 1 else 0
  }

  /** With results, the arrows keep an index inside the list inside it. */
  lemma ArrowsStayInside(i: int, count: nat)
    requires 0 <= i < count
    ensures 0 <= Down(i, count) < count
    ensures 0 <= Up(i) < count
  {
  }

  /** Down then up from a non-last, non-negative index comes back. */
  lemma DownThenUp(i: int, count: nat)
    requires 0 <= i < count - 1
    ensures Up(Down(i, count)) == i
  {
  }

  class Palette {
    var isOpen: bool
    var query: string
    var results: seq<Item>
    var selectedIndex: int
    /** The table the palette searches. */
    const data: seq<Item>

    /** The results always belong to the current query, and the index never drops below -1. */
    ghost predicate Valid()
      reads this
    {
      results == Results(data, query) && selectedIndex >= -1
    }

    /** A closed palette with an empty query over `table` (the component passes `SearchData`). */
    constructor (table: seq<Item>)
      ensures Valid()
      ensures data == table
      ensures !isOpen && query == "" && results == [] && selectedIndex == 0
    {
      isOpen := false;
      query := "";
      results := [];
      selectedIndex := 0;
      data := table;
      NoResultsWhenBlank(table, "");
    }

    /** The effect keyed on `query`: blank gives no results; otherwise filter and select the first. */
    method FilterEffect()
      requires selectedIndex >= -1
      modifies this
      ensures Valid()
      ensures selectedIndex == if AllSpace(query) then old(selectedIndex) else 0
      ensures query == old(query) && isOpen == old(isOpen)
    {
      if AllSpace(query) {
        results := [];
      } else {
        results := Matching(data, query);
        selectedIndex := 0;
      }
    }

    /** `setQuery`; the filter effect runs only when the query actually changes. */
    method SetQuery(q: string)
      requires Valid()
      modifies this
      ensures Valid()
      ensures query == q
      ensures selectedIndex == if q == old(query) || AllSpace(q) then old(selectedIndex) else 0
      ensures isOpen == old(isOpen)
    {
      if q != query {
        query := q;
        FilterEffect();
      }
    }

    /** The document-level key listener: Ctrl+K opens; Escape closes and clears the query. */
    method GlobalKeyDown(ctrl: bool, key: string)
      requires Valid()
      modifies this
      ensures Valid()
      ensures key == "Escape" ==> !isOpen && query == "" && results == [] && selectedIndex == old(selectedIndex)
      ensures key != "Escape" ==>
        isOpen == (old(isOpen) || (ctrl && key == "k"))
        && query == old(query) && results == old(results) && selectedIndex == old(selectedIndex)
    {
      if ctrl && key == "k" {
        isOpen := true;
      }
      if key == "Escape" {
        CloseAndClear();
      }
    }

    /** The search button shown while the palette is closed. */
    method Open()
      modifies this
      ensures isOpen
      ensures query == old(query) && results == old(results) && selectedIndex == old(selectedIndex)
    {
      isOpen := true;
    }

    /**
     * The backdrop and the close button: the palette closes but keeps its
     * query, results and selection, which reopening shows again.
     */
    method Close()
      modifies this
      ensures !isOpen
      ensures query == old(query) && results == old(results) && selectedIndex == old(selectedIndex)
    {
      isOpen := false;
    }

    /** `setIsOpen(false)` and `setQuery('')`, as Escape and a chosen result do. */
    method CloseAndClear()
      requires Valid()
      modifies this
      ensures Valid()
      ensures !isOpen && query == "" && results == [] && selectedIndex == old(selectedIndex)
    {
      isOpen := false;
      assert AllSpace("");
      SetQuery("");
      NoResultsWhenBlank(data, "");
    }

    /** `handleResultClick`: route the result, then close and clear the query. */
    method ResultClick(r: Item) returns (nav: Navigation)
      requires Valid()
      modifies this
      ensures Valid()
      ensures nav == Route(r)
      ensures !isOpen && query == "" && results == [] && selectedIndex == old(selectedIndex)
    {
      nav := Route(r);
      CloseAndClear();
    }

    /**
     * The input's `handleKeyDown`: the arrows move the selection within
     * bounds; Enter chooses the selected result when there is one.
     */
    method KeyDown(key: string) returns (nav: Option<Navigation>)
      requires Valid()
      modifies this
      ensures Valid()
      ensures key == "ArrowDown" ==>
        selectedIndex == Down(old(selectedIndex), |old(results)|)
        && query == old(query) && isOpen == old(isOpen) && nav == None
      ensures key == "ArrowUp" ==>
        selectedIndex == Up(old(selectedIndex))
        && query == old(query) && isOpen == old(isOpen) && nav == None
      ensures key == "Enter" && 0 <= old(selectedIndex) < |old(results)| ==>
        nav == Some(Route(old(results)[old(selectedIndex)])) && !isOpen && query == ""
        && results == [] && selectedIndex == old(selectedIndex)
      ensures key != "ArrowDown" && key != "ArrowUp"
              && !(key == "Enter" && 0 <= old(selectedIndex) < |old(results)|) ==>
        nav == None && query == old(query) && isOpen == old(isOpen)
        && selectedIndex == old(selectedIndex)
    {
      nav := None;
      if key == "ArrowDown" {
        selectedIndex := Down(selectedIndex, |results|);
      } else if key == "ArrowUp" {
        selectedIndex := Up(selectedIndex);
      } else if key == "Enter" && 0 <= selectedIndex < |results| {
        var n := ResultClick(results[selectedIndex]);
        nav := Some(n);
      }
    }
  }
}
