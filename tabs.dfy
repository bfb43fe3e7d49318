/** The tab strip of the live-class page (the `.tab-btn` click listener in
  * static/js/live_class.js): buttons naming a tab, content panels found by
  * id, and the `active` class on each. */
module Tabs {
  import opened Wrappers
  import opened Seqs
  import opened ClassList

  /** The id of the content panel a tab name selects: `${tabName}-tab`. */
  function PanelId(tabName: string): string {
    tabName + "-tab"
  }

  /** Each button's `data-tab`, each `.tab-content` panel's id, and which of
    * them carry `active`, in document order. */
  class TabStrip {
    const buttonTabs: seq<string>
    const panelIds: seq<string>
    var buttonActive: seq<bool>
    var panelActive: seq<bool>

    ghost predicate Valid()
      reads this
    {
      |buttonActive| == |buttonTabs| && |panelActive| == |panelIds|
    }

    constructor (buttonTabs: seq<string>, buttonActive: seq<bool>, panelIds: seq<string>, panelActive: seq<bool>)
      requires |buttonActive| == |buttonTabs| && |panelActive| == |panelIds|
      ensures Valid()
      ensures this.buttonTabs == buttonTabs && this.buttonActive == buttonActive
      ensures this.panelIds == panelIds && this.panelActive == panelActive
    {
      this.buttonTabs, this.buttonActive := buttonTabs, buttonActive;
      this.panelIds, this.panelActive := panelIds, panelActive;
    }

    /** A click on button `clicked`: afterwards that button is the only
      * active one. The panel whose id is the first match for the button's tab
      * becomes the only active panel; when no panel has that id the lookup
      * yields null and the handler stops with every panel inactive
      * (`shown` is false). */
    method SelectTab(clicked: nat) returns (shown: bool)
      requires Valid() && clicked < |buttonTabs|
      modifies this`buttonActive, this`panelActive
      ensures Valid()
      ensures OnlyActive(buttonActive, clicked)
      ensures var target := FirstIndexOf(panelIds, PanelId(buttonTabs[clicked]));
        && shown == target.Some?
        && (shown ==> OnlyActive(panelActive, target.value))
        && (!shown ==> NoneActive(panelActive))
    {
      var i := 0;
      while i < |buttonActive|
        invariant 0 <= i <= |buttonActive| == |buttonTabs|
        invariant forall k :: 0 <= k < i ==> !buttonActive[k]
        invariant panelActive == old(panelActive)
      {
        buttonActive := buttonActive[i := false];
        i := i + 1;
      }
      buttonActive := buttonActive[clicked := true];

      var j := 0;
      while j < |panelActive|
        invariant 0 <= j <= |panelActive| == |panelIds|
        invariant forall k :: 0 <= k < j ==> !panelActive[k]
        invariant |buttonActive| == |buttonTabs| && OnlyActive(buttonActive, clicked)
      {
        panelActive := panelActive[j := false];
        j := j + 1;
      }
      var target := FirstIndexOf(panelIds, PanelId(buttonTabs[clicked]));
      shown := target.Some?;
      if shown {
        panelActive := panelActive[target.value := true];
      }
    }
  }
}
