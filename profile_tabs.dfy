/** The tab strip on the profile page: three tabs and the index of the active one. */
module ProfileTabs {

  datatype TabType = Posts | Followers | Following

  /** A tab: its id and its label (`label` is a Dafny keyword). */
  datatype Tab = Tab(id: TabType, labelText: string)

  /** The tabs, in display order. */
  const Tabs: seq<Tab> := [Tab(Posts, "Posts"), Tab(Followers, "Followers"), Tab(Following, "Following")]

  /** Where each tab type sits in the strip. */
  function Position(t: TabType): (i: nat)
    ensures i < |Tabs| && Tabs[i].id == t
    ensures forall j :: 0 <= j < |Tabs| && Tabs[j].id == t ==> j == i
  {
    match t
    case Posts => 0
    case Followers => 1
    case Following => 2
  }

  /** The first index whose tab has id t, or -1 when there is none. */
  method FindIndex(tabs: seq<Tab>, t: TabType) returns (index: int)
    ensures -1 <= index < |tabs|
    ensures 0 <= index ==> tabs[index].id == t && forall j :: 0 <= j < index ==> tabs[j].id != t
    ensures index == -1 ==> forall j :: 0 <= j < |tabs| ==> tabs[j].id != t
  {
    index := 0;
    while index < |tabs|
      invariant 0 <= index <= |tabs|
      invariant forall j :: 0 <= j < index ==> tabs[j].id != t
    {
      if tabs[index].id == t {
        return;
      }
      index := index + 1;
    }
    index := -1;
  }

  class TabBar {
    /** The `activeTab` prop. */
    var activeTab: TabType
    var activeIndex: int

    /** The active index names one of the tabs. */
    ghost predicate Valid()
      reads this
    {
      0 <= activeIndex < |Tabs|
    }

    /** The active index starts at the position of the `activeTab` prop. */
    constructor (activeTab: TabType)
      ensures this.activeTab == activeTab
      ensures activeIndex == Position(activeTab) && Valid()
    {
      this.activeTab := activeTab;
      var i := FindIndex(Tabs, activeTab);
      assert Tabs[Position(activeTab)].id == activeTab;
      activeIndex := i;
    }

    /** A click on the tab at `index`: it becomes active and its id is reported. */
    method HandleTabClick(index: nat) returns (reported: TabType)
      requires index < |Tabs|
      modifies this
      ensures Valid()
      ensures activeIndex == index && reported == Tabs[index].id
      ensures activeTab == old(activeTab)
    {
      activeIndex := index;
      reported := Tabs[index].id;
    }

    /** A later `activeTab` prop is recorded but does not move the active index. */
    method ReceiveActiveTab(t: TabType)
      requires Valid()
      modifies this
      ensures Valid()
      ensures activeTab == t && activeIndex == old(activeIndex)
    {
      activeTab := t;
    }

    /** The button at position i has the active style. */
    predicate IsActiveButton(i: nat)
      reads this
    {
      activeIndex == i
    }

    /** Exactly one of the tab buttons has the active style: the one at the active index. */
    lemma ExactlyOneTabActive()
      requires Valid()
      ensures exists i :: 0 <= i < |Tabs| && IsActiveButton(i)
      ensures forall i, j :: 0 <= i < |Tabs| && 0 <= j < |Tabs| && IsActiveButton(i) && IsActiveButton(j) ==> i == j
    {
      assert IsActiveButton(activeIndex);
    }
  }

  /** A click on the tab at `index` reports the tab type whose position is `index`. */
  lemma ClickReportsTabAtIndex(index: nat)
    requires index < |Tabs|
    ensures Position(Tabs[index].id) == index
  {
  }
}
