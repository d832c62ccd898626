/** The page's search and selection state: whether the search box is open,
    what is typed in it, which activity is selected and which Finance Act
    rows are shown for it. */
module Page {
  import opened Definitions
  import opened Sequences
  import opened Taxonomy
  import opened Search
  import opened Fees

  /** The three phases the page moves through. */
  datatype Phase = Idle | Searching | Selected

  class BusinessFinancePage {
    /** The flattened taxonomy, computed once when the page is created. */
    const activities: seq<FlatActivity>
    /** The Finance Act table the page joins against. */
    const financeAct: seq<FinancialAct>

    var search: bool
    var searchValue: string
    var selectedActivity: Option<FlatActivity>
    var filteredFinanceAct: seq<FinancialAct>

    /** The rows the join yields for the current selection; none without a selection. */
    function SelectedRows(): seq<FinancialAct>
      reads this
    {
      match selectedActivity
      case None => []
      case Some(a) => FeeJoin(financeAct, a.trade)
    }

    /** The consistency the handlers keep: a selection exists only while the
        box is open, it is one of the flattened activities, and the rows on
        show are the join for it. */
    ghost predicate Valid()
      reads this
    {
      (selectedActivity.Some? ==> search && selectedActivity.value in activities) &&
      filteredFinanceAct == SelectedRows()
    }

    /** Idle while the box is closed; Searching exactly when the match list is
        rendered (open, nothing selected); Selected when open with a selection. */
    function CurrentPhase(): (p: Phase)
      reads this
      ensures p == Idle <==> !search
      ensures p == Searching <==> search && selectedActivity == None
      ensures p == Selected <==> search && selectedActivity.Some?
    {
      if !search then Idle else if selectedActivity.None? then Searching else Selected
    }

    /** The activities listed under the search box: the list is rendered only
        while the box is open and nothing is selected. */
    function MatchList(): (r: seq<FlatActivity>)
      reads this
      ensures IsSubsequence(r, activities)
      ensures CurrentPhase() == Searching ==> forall a :: a in r <==> a in activities && Matches(a, searchValue)
      ensures CurrentPhase() == Searching ==>
                forall a :: multiset(r)[a] == if Matches(a, searchValue) then multiset(activities)[a] else 0
      ensures CurrentPhase() == Searching && searchValue == "" ==> r == activities
      ensures CurrentPhase() != Searching ==> r == []
    {
      if search && selectedActivity.None? then
        SearchFilterEmptyQuery(activities);
        SearchFilter(activities, searchValue)
      else []
    }

    /** The page as first rendered: its activities are the flattened taxonomy. */
    constructor (data: seq<Industry>, table: seq<FinancialAct>)
      ensures Valid() && CurrentPhase() == Idle
      ensures activities == Flatten(data) && financeAct == table
      ensures !search && searchValue == "" && selectedActivity == None && filteredFinanceAct == []
    {
      var flat := FlattenTaxonomy(data);
      activities := flat;
      financeAct := table;
      search := false;
      searchValue := "";
      selectedActivity := None;
      filteredFinanceAct := [];
    }

    /** The button shown while the box is closed opens it and changes nothing else. */
    method Open()
      requires Valid()
      modifies this
      ensures Valid()
      ensures search
      ensures searchValue == old(searchValue) && selectedActivity == old(selectedActivity)
      ensures filteredFinanceAct == old(filteredFinanceAct)
      ensures old(CurrentPhase()) == Idle ==> CurrentPhase() == Searching
      ensures old(CurrentPhase()) == Idle ==> MatchList() == SearchFilter(activities, searchValue)
    {
      search := true;
    }

    /** Typing replaces the search value and nothing else. */
    method ChangeSearch(value: string)
      requires Valid()
      modifies this
      ensures Valid()
      ensures searchValue == value
      ensures search == old(search) && selectedActivity == old(selectedActivity)
      ensures filteredFinanceAct == old(filteredFinanceAct)
      ensures CurrentPhase() == old(CurrentPhase())
    {
      searchValue := value;
    }

    /** Clicking an item of the match list selects it, shows its name in the
        box, hides the list and shows exactly its Finance Act rows. */
    method SelectActivity(activity: FlatActivity)
      requires Valid()
      requires activity in MatchList()
      modifies this
      ensures Valid()
      ensures selectedActivity == Some(activity) && searchValue == activity.activity
      ensures search == old(search)
      ensures filteredFinanceAct == FeeJoin(financeAct, activity.trade)
      ensures forall row :: row in filteredFinanceAct <==> row in financeAct && row.NAICS == activity.trade
      ensures old(CurrentPhase()) == Searching && CurrentPhase() == Selected
      ensures MatchList() == []
    {
      selectedActivity := Some(activity);
      searchValue := activity.activity;
      filteredFinanceAct := FeeJoin(financeAct, activity.trade);
    }

    /** The close button closes the box, drops the selection and the rows,
        and keeps what was typed. */
    method Close()
      requires Valid()
      modifies this
      ensures Valid()
      ensures !search && selectedActivity == None && filteredFinanceAct == []
      ensures searchValue == old(searchValue)
      ensures CurrentPhase() == Idle && MatchList() == []
    {
      search := false;
      selectedActivity := None;
      filteredFinanceAct := [];
    }
  }

  /** A session on a one-leaf taxonomy whose trade key has one Finance Act row:
      open the box, pick the only match, see exactly that row, close again. */
  method RestaurantSession()
  {
    var act := Activity("A1", "Restaurant", "5812");
    var sub := SubCategory("S1", "Eating places", [act]);
    var cat := Category("C1", "Food services", [sub]);
    var ind := Industry("I1", "Hospitality", [cat]);
    var row := FinancialAct("R1", "5812", "Restaurant", 500, 200, 150, 100, 50);
    var other := FinancialAct("R2", "5813", "Bar", 400, 200, 150, 100, 50);
    var page := new BusinessFinancePage([ind], [row, other]);
    var rec := Record(ind, cat, sub, act);
    assert [ind][..0] == [] && [cat][..0] == [] && [sub][..0] == [] && [act][..0] == [];
    assert ActivityRecords(ind, cat, sub, [act]) == [rec];
    assert SubCategoryRecords(ind, cat, [sub]) == [rec];
    assert CategoryRecords(ind, [cat]) == [rec];
    FlattenSingle(ind);
    assert page.activities == [rec];
    page.Open();
    SearchFilterEmptyQuery(page.activities);
    page.SelectActivity(rec);
    assert [row, other][1..][1..] == [];
    assert page.filteredFinanceAct == [row];
    assert page.searchValue == "Restaurant";
    page.Close();
    assert page.filteredFinanceAct == [] && page.CurrentPhase() == Idle;
  }
}
