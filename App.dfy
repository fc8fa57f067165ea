/** The page shell (App.tsx): the header tab, whether the chat panel is open, and which listing,
    if any, is shown in detail instead of the home page. */
module App {
  import opened Wrappers
  import opened Types

  /** What `<main>` shows: one listing's detail page, or the hero and the listings. */
  datatype Page = DetailPage(property: Property) | HomePage(activeTab: ActiveTab)

  class AppState {
    var activeTab: ActiveTab
    var isChatOpen: bool
    var selectedProperty: Option<Property>

    /** The initial state: the Buy tab, the chat closed, nothing selected. */
    constructor ()
      ensures activeTab == BuyTab && !isChatOpen && selectedProperty == None
      ensures CurrentPage() == HomePage(BuyTab)
    {
      activeTab := BuyTab;
      isChatOpen := false;
      selectedProperty := None;
    }

    /** `selectedProperty ? <PropertyDetail/> : <Hero/> + <PropertyListings/>`; the hero is
        given the header's tab. */
    function CurrentPage(): (page: Page)
      reads this
      ensures page.DetailPage? <==> selectedProperty.Some?
      ensures page.DetailPage? ==> page.property == selectedProperty.value
      ensures page.HomePage? ==> page.activeTab == activeTab
    {
      match selectedProperty
      case Some(p) => DetailPage(p)
      case None => HomePage(activeTab)
    }

    /** `handlePropertySelect`, from a listing card or from a similar listing on the detail
        page: the detail page now shows that listing, whatever was shown before. */
    method HandlePropertySelect(p: Property)
      modifies this
      ensures selectedProperty == Some(p) && CurrentPage() == DetailPage(p)
      ensures activeTab == old(activeTab) && isChatOpen == old(isChatOpen)
    {
      selectedProperty := Some(p);
    }

    /** `handleCloseDetail`: back to the home page under the same tab. */
    method HandleCloseDetail()
      modifies this
      ensures selectedProperty == None && CurrentPage() == HomePage(activeTab)
      ensures activeTab == old(activeTab) && isChatOpen == old(isChatOpen)
    {
      selectedProperty := None;
    }

    /** The header's `setActiveTab`. */
    method SetActiveTab(tab: ActiveTab)
      modifies this
      ensures activeTab == tab
      ensures isChatOpen == old(isChatOpen) && selectedProperty == old(selectedProperty)
    {
      activeTab := tab;
    }

    /** The chat panel's `setIsOpen`; its round button passes `!isOpen`. */
    method SetIsChatOpen(open: bool)
      modifies this
      ensures isChatOpen == open
      ensures activeTab == old(activeTab) && selectedProperty == old(selectedProperty)
    {
      isChatOpen := open;
    }
  }

  /** Selecting a similar listing from a detail page replaces the selection, and closing the
      detail page then returns home; the tab and the chat panel are untouched throughout. */
  method SelectSimilarThenClose(app: AppState, shown: Property, similar: Property)
    modifies app
    ensures app.selectedProperty == None && app.CurrentPage() == HomePage(old(app.activeTab))
    ensures app.isChatOpen == old(app.isChatOpen)
  {
    app.HandlePropertySelect(shown);
    app.HandlePropertySelect(similar);
    assert app.CurrentPage() == DetailPage(similar);
    app.HandleCloseDetail();
  }

  /** Pressing the chat button twice leaves the panel as it was. */
  method ToggleChatTwice(app: AppState)
    modifies app
    ensures app.isChatOpen == old(app.isChatOpen)
    ensures app.activeTab == old(app.activeTab) && app.selectedProperty == old(app.selectedProperty)
  {
    app.SetIsChatOpen(!app.isChatOpen);
    app.SetIsChatOpen(!app.isChatOpen);
  }
}
