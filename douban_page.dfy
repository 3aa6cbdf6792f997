/** The paged list state of the browse page.

    The page keeps the loaded items, the next page number, whether more pages may
    exist, whether a load is in flight, the category type and the three selections.
    A load is asynchronous: it marks the page as loading and sends its request
    (`StartLoad`), and later commits whatever comes back (`FinishLoad`). Nothing
    compares the selections at completion with those at dispatch, so the user's
    handlers may run in between and a late response is still committed. The fetch
    itself is not modelled: its outcome is a parameter of `FinishLoad`.

    The load-more callback is a closure made when the observer effect last ran.
    That effect re-runs when `hasMore`, `loading`, the type or a selection changes,
    but not when the page number changes, so the callback asks for the page number
    of that moment (`observedPage`), not necessarily the current one. */
module DoubanPage {
  import opened Common

  datatype DoubanItem = DoubanItem(id: string, title: string, poster: string, rate: string, year: string)

  datatype Kind = Movie | Tv | Custom

  /** The type a custom category is configured with: movie or TV, never custom. */
  datatype CategoryType = MovieCategory | TvCategory

  /** A configured custom category; `query` is the address it is fetched from. */
  datatype CustomCategory = CustomCategory(name: string, categoryType: CategoryType, query: string)

  /** The argument passed to the fetch: a custom category's address, or the
      catalog selections. Both carry the page number asked for. */
  datatype FetchRequest =
    | CustomFetch(apiUrl: string, page: int)
    | CatalogFetch(kind: Kind, category: string, subcategory: string, weekday: string, page: int)

  /** How a fetch ended: with a response whose `items` may be missing (or with no
      response at all, also `None`), or by throwing. */
  datatype FetchOutcome = Fetched(items: Option<seq<DoubanItem>>) | Threw

  /** `res?.items || []`: the response's items when present (an empty array stays
      empty), `[]` when they are missing. A thrown fetch never reaches this
      expression; `Threw` maps to `[]` only to keep the function total, and
      `FinishLoad` does not use it for that case. */
  function Received(outcome: FetchOutcome): (items: seq<DoubanItem>)
  {
    match outcome
    case Fetched(Some(items)) => items
    case _ => []
  }

  predicate NamedBy(name: string, c: CustomCategory)
  {
    c.name == name
  }

  /** `customCategories.find(c => c.name === primarySelection)`, as an index. */
  function FindCategory(categories: seq<CustomCategory>, name: string): (r: Option<nat>)
    ensures r.Some? ==> r.value < |categories| && categories[r.value].name == name
    ensures r.Some? ==> forall j :: 0 <= j < r.value ==> categories[j].name != name
    ensures r.None? <==> forall j :: 0 <= j < |categories| ==> categories[j].name != name
  {
    FindFirst(categories, c => NamedBy(name, c))
  }

  /** The things that can happen to the page: a type button, the three selection
      handlers, the two effects running, the sentinel's visibility changing, and a
      load settling. */
  datatype Event =
    | ChooseType(kind: Kind)
    | ChoosePrimary(value: string)
    | ChooseSecondary(value: string)
    | ChooseWeekday(day: string)
    | SelectionEffect
    | ObserverEffect
    | Intersect(visible: bool)
    | Settle(reset: bool, outcome: FetchOutcome)

  /** A load settling with at least one item: the only event that can set `hasMore`. */
  predicate BringsItems(e: Event)
  {
    e.Settle? && e.outcome.Fetched? && |Received(e.outcome)| > 0
  }

  class BrowsePage {
    var data: seq<DoubanItem>
    var page: int
    var hasMore: bool
    var loading: bool
    var kind: Kind
    var primary: string
    var secondary: string
    var weekday: string
    /** The page number captured by the load-more callback currently installed. */
    var observedPage: int
    const customCategories: seq<CustomCategory>

    /** Pages are numbered from 1, including the one the load-more callback holds. */
    ghost predicate Valid()
      reads this
    {
      page >= 1 && observedPage >= 1
    }

    /** The first render: nothing loaded, page 1, more assumed, not loading; the
        observer installed on mount holds page 1. */
    constructor (customCategories: seq<CustomCategory>)
      ensures Valid()
      ensures data == [] && page == 1 && hasMore && !loading && observedPage == 1
      ensures kind == Movie && primary == "" && secondary == "" && weekday == ""
      ensures this.customCategories == customCategories
    {
      data := [];
      page := 1;
      hasMore := true;
      loading := false;
      kind := Movie;
      primary := "";
      secondary := "";
      weekday := "";
      observedPage := 1;
      this.customCategories := customCategories;
    }

    /** The category-type buttons' `setType`. */
    method SetType(k: Kind)
      modifies this`kind
      ensures kind == k
    {
      kind := k;
    }

    /** The part of `loadInitialData` before the fetch is awaited: marks the page
        as loading and builds the request from the state. A reset load asks for
        page 1, any other for `capturedPage`, the page number held by the closure
        that called it. */
    method StartLoad(reset: bool, category: Option<CustomCategory>, capturedPage: int)
      returns (req: FetchRequest)
      requires Valid()
      modifies this`loading
      ensures Valid() && loading
      ensures req.page == if reset then 1 else capturedPage
      ensures kind == Custom && category.Some? ==>
        req == CustomFetch(category.value.query, req.page)
      ensures !(kind == Custom && category.Some?) ==>
        req == CatalogFetch(kind, primary, secondary, weekday, req.page)
    {
      loading := true;
      var p := if reset then 1 else capturedPage;
      if kind == Custom && category.Some? {
        req := CustomFetch(category.value.query, p);
      } else {
        req := CatalogFetch(kind, primary, secondary, weekday, p);
      }
    }

    /** The part of `loadInitialData` after the fetch settles. A reset load replaces
        the list and moves to page 2; any other appends and advances one page; in
        both, `hasMore` records whether this page had items. A thrown fetch changes
        nothing but `loading`, which is cleared in every case. */
    method FinishLoad(reset: bool, outcome: FetchOutcome)
      requires Valid()
      modifies this`data, this`page, this`hasMore, this`loading
      ensures Valid() && !loading
      ensures outcome.Threw? ==>
        data == old(data) && page == old(page) && hasMore == old(hasMore)
      ensures outcome.Fetched? && reset ==> data == Received(outcome) && page == 2
      ensures outcome.Fetched? && !reset ==>
        data == old(data) + Received(outcome) && page == old(page) + 1
      ensures outcome.Fetched? ==> hasMore == (|Received(outcome)| > 0)
    {
      if outcome.Fetched? {
        var result := Received(outcome);
        if reset {
          data := result;
          page := 2;
        } else {
          data := data + result;
          page := page + 1;
        }
        hasMore := |result| > 0;
      }
      loading := false;
    }

    /** A whole load, made from the current render, with no other event in between. */
    method Load(reset: bool, category: Option<CustomCategory>, outcome: FetchOutcome)
      returns (req: FetchRequest)
      requires Valid()
      modifies this`data, this`page, this`hasMore, this`loading
      ensures Valid() && !loading
      ensures req.page >= 1 && req.page == if reset then 1 else old(page)
      ensures outcome.Threw? ==>
        data == old(data) && page == old(page) && hasMore == old(hasMore)
      ensures outcome.Fetched? ==>
        data == (if reset then [] else old(data)) + Received(outcome) &&
        page == (if reset then 2 else old(page) + 1) &&
        hasMore == (|Received(outcome)| > 0)
    {
      req := StartLoad(reset, category, page);
      FinishLoad(reset, outcome);
      assert outcome.Fetched? && reset ==> data == [] + Received(outcome);
    }

    /** The effect run when the type or a selection changes: a reset load, which in
        custom mode happens only for a configured category named by the primary
        selection, fetched from the first such category's address. */
    method OnSelectionChange() returns (req: Option<FetchRequest>)
      requires Valid()
      modifies this`loading
      ensures Valid()
      ensures kind != Custom ==>
        req == Some(CatalogFetch(kind, primary, secondary, weekday, 1))
      ensures kind == Custom ==>
        match FindCategory(customCategories, primary)
        case Some(i) => req == Some(CustomFetch(customCategories[i].query, 1))
        case None => req.None?
      ensures loading == (req.Some? || old(loading))
    {
      if kind == Custom {
        var found := FindCategory(customCategories, primary);
        if found.Some? {
          var r := StartLoad(true, Some(customCategories[found.value]), page);
          req := Some(r);
        } else {
          req := None;
        }
      } else {
        var r := StartLoad(true, None, page);
        req := Some(r);
      }
    }

    /** The observer effect: installs a fresh load-more callback, which captures the
        page number of this moment. */
    method InstallObserver()
      requires Valid()
      modifies this`observedPage
      ensures Valid() && observedPage == page
    {
      observedPage := page;
    }

    /** The load-more callback: loads only when the sentinel is visible, more pages
        may exist and no load is in flight; in custom mode also only for a
        configured category named by the selection. It asks for the page number it
        captured when it was installed. */
    method OnIntersect(isIntersecting: bool) returns (req: Option<FetchRequest>)
      requires Valid()
      modifies this`loading
      ensures Valid()
      ensures req.Some? ==> isIntersecting && hasMore && !old(loading) && loading
      ensures req.Some? ==> req.value.page == observedPage && req.value.page >= 1
      ensures req.None? ==> loading == old(loading)
      ensures isIntersecting && hasMore && !old(loading) ==>
        if kind != Custom then
          req == Some(CatalogFetch(kind, primary, secondary, weekday, observedPage))
        else
          match FindCategory(customCategories, primary)
          case Some(i) => req == Some(CustomFetch(customCategories[i].query, observedPage))
          case None => req.None?
    {
      req := None;
      if isIntersecting && hasMore && !loading {
        if kind == Custom {
          var found := FindCategory(customCategories, primary);
          if found.Some? {
            var r := StartLoad(false, Some(customCategories[found.value]), observedPage);
            req := Some(r);
          }
        } else {
          var r := StartLoad(false, None, observedPage);
          req := Some(r);
        }
      }
    }

    /** Choosing a primary category: clears the secondary choice and the list and
        goes back to page 1. */
    method HandlePrimaryChange(value: string)
      requires Valid()
      modifies this`primary, this`secondary, this`page, this`data
      ensures Valid()
      ensures primary == value && secondary == "" && page == 1 && data == []
    {
      primary := value;
      secondary := "";
      page := 1;
      data := [];
    }

    /** Choosing a secondary category: clears the list and goes back to page 1. */
    method HandleSecondaryChange(value: string)
      requires Valid()
      modifies this`secondary, this`page, this`data
      ensures Valid()
      ensures secondary == value && page == 1 && data == []
    {
      secondary := value;
      page := 1;
      data := [];
    }

    /** Choosing a weekday: clears the list and goes back to page 1. */
    method HandleWeekdayChange(day: string)
      requires Valid()
      modifies this`weekday, this`page, this`data
      ensures Valid()
      ensures weekday == day && page == 1 && data == []
    {
      weekday := day;
      page := 1;
      data := [];
    }

    /** One event. Only the two effects and the sentinel issue loads; a load-more
        needs `hasMore`; and `hasMore` can only become true through a load that
        settles with items. */
    method Step(e: Event) returns (req: Option<FetchRequest>)
      requires Valid()
      modifies this
      ensures Valid()
      ensures req.Some? ==> e.SelectionEffect? || e.Intersect?
      ensures e.Intersect? && !old(hasMore) ==> req.None?
      ensures !BringsItems(e) && hasMore ==> old(hasMore)
    {
      req := None;
      match e
      case ChooseType(k) => SetType(k);
      case ChoosePrimary(value) => HandlePrimaryChange(value);
      case ChooseSecondary(value) => HandleSecondaryChange(value);
      case ChooseWeekday(day) => HandleWeekdayChange(day);
      case SelectionEffect => req := OnSelectionChange();
      case ObserverEffect => InstallObserver();
      case Intersect(visible) => req := OnIntersect(visible);
      case Settle(reset, outcome) => FinishLoad(reset, outcome);
    }
  }

  /** Once `hasMore` is false (a page came back empty), no sequence of events in
      which no load settles with items issues a load-more. */
  method StaysExhausted(p: BrowsePage, events: seq<Event>) returns (sent: seq<Option<FetchRequest>>)
    requires p.Valid() && !p.hasMore
    requires forall i :: 0 <= i < |events| ==> !BringsItems(events[i])
    modifies p
    ensures p.Valid() && !p.hasMore
    ensures |sent| == |events|
    ensures forall i :: 0 <= i < |events| && events[i].Intersect? ==> sent[i].None?
  {
    sent := [];
    for k := 0 to |events|
      invariant |sent| == k
      invariant p.Valid() && !p.hasMore
      invariant forall i :: 0 <= i < k && events[i].Intersect? ==> sent[i].None?
    {
      var r := p.Step(events[k]);
      sent := sent + [r];
    }
  }

  /** A response is committed even when the selection changed while it was in
      flight: the list ends up holding items fetched for the old selection. */
  method LateResponseIsCommitted(categories: seq<CustomCategory>, a: string, b: string,
                                 r: seq<DoubanItem>)
    returns (p: BrowsePage, sent: FetchRequest)
    requires a != b
    ensures sent == CatalogFetch(Movie, a, "", "", 1)
    ensures p.primary == b && p.data == r && p.page == 2 && !p.loading
  {
    p := new BrowsePage(categories);
    p.HandlePrimaryChange(a);
    var req := p.OnSelectionChange();
    sent := req.value;
    p.HandlePrimaryChange(b);
    p.FinishLoad(true, Fetched(Some(r)));
  }

  /** Re-choosing the primary category already selected changes none of the
      observer effect's inputs, so the callback is not reinstalled: the list is
      cleared and the page reset to 1, but the next load-more still asks for the
      page captured before, and appends it to the empty list. */
  method ReselectKeepsCapturedPage(p: BrowsePage, r: seq<DoubanItem>)
    returns (req: Option<FetchRequest>, asked: int)
    requires p.Valid() && p.hasMore && !p.loading && p.kind != Custom && p.secondary == ""
    modifies p
    ensures asked == old(p.page)
    ensures req == Some(CatalogFetch(p.kind, p.primary, "", p.weekday, asked))
    ensures p.data == r && p.page == 2
  {
    p.InstallObserver();
    asked := p.page;
    p.HandlePrimaryChange(p.primary);
    req := p.OnIntersect(true);
    p.FinishLoad(false, Fetched(Some(r)));
  }
}
