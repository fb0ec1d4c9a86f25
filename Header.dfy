/** The header bar: search box, type filters, and the buttons that add a
    sticky note, a paper or a link card. */
module Header {
  import opened BoardTypes
  import opened Seqs
  import opened Text
  import opened BoardStore
  import UseBoard

  /** `t => t !== type`. */
  function NotType(t: CardType): CardType -> bool {
    (x: CardType) => x != t
  }

  /** handleTypeFilterToggle: a type already in the filters is removed
      (every occurrence of it), a missing one is appended. */
  function ToggleType(filters: seq<CardType>, t: CardType): seq<CardType> {
    if t in filters then Filter(filters, NotType(t)) else filters + [t]
  }

  /** After a toggle the type is present exactly when it was absent before,
      every other type keeps its count, and an absent type is appended at
      the end. */
  lemma ToggleTypeSpec(filters: seq<CardType>, t: CardType)
    ensures t in ToggleType(filters, t) <==> t !in filters
    ensures forall x :: x != t ==> multiset(ToggleType(filters, t))[x] == multiset(filters)[x]
    ensures t !in filters ==> ToggleType(filters, t) == filters + [t]
  {
    if t in filters {
      FilterMembership(filters, NotType(t), t);
      forall x | x != t
        ensures multiset(ToggleType(filters, t))[x] == multiset(filters)[x]
      {
        FilterCount(filters, NotType(t), x);
      }
    }
  }

  /** Toggling an absent type twice restores the filters. */
  lemma ToggleTwice(filters: seq<CardType>, t: CardType)
    requires t !in filters
    ensures ToggleType(ToggleType(filters, t), t) == filters
  {
    FilterConcat(filters, [t], NotType(t));
    FilterAll(filters, NotType(t));
  }

  /** The sticky note handleAddSticky adds. */
  function StickyDraft(color: CardColor, size: CardSize, position: Position): (d: CardDraft)
    ensures d.kind == CardType.Sticky && d.content == "Nova ideia..." && d.position == position
    ensures d.color == Some(color) && d.size == Some(size) && d.metadata.None?
  {
    CardDraft(CardType.Sticky, position, "Nova ideia...", Some(color), Some(size), None, None, None, None)
  }

  /** The paper handleAddPaper adds, titled 'Novo Paper'. */
  function PaperDraft(position: Position): (d: CardDraft)
    ensures d.kind == Paper && d.content == "Escreva suas notas aqui..." && d.position == position
    ensures MetaString(d.metadata, "title") == Some("Novo Paper")
    ensures d.color.None? && d.size.None?
  {
    CardDraft(Paper, position, "Escreva suas notas aqui...", None, None, None, None,
              Some(map["title" := MStr("Novo Paper")]), None)
  }

  /** The search update that clearTypeFilters sends: query, tag filters and
      type filters all emptied, highlighted ids kept. */
  const ClearFilters := SearchUpdate(Some(""), Some([]), Some([]), None)

  /** Clearing leaves no search criterion, so every card passes. */
  lemma ClearShowsAll(st: SearchState, cards: seq<Card>)
    ensures FilteredCards(cards, ApplySearchUpdate(st, ClearFilters)) == cards
  {
    FilteredCardsNoCriteria(cards, ApplySearchUpdate(st, ClearFilters));
  }

  class HeaderBar {
    var showLinkInput: bool
    var linkUrl: string
    var showTypeFilter: bool
    var isExpanded: bool
    const store: UseBoard.BoardHook

    constructor(store: UseBoard.BoardHook)
      ensures !showLinkInput && linkUrl == "" && !showTypeFilter && !isExpanded
      ensures this.store == store
    {
      showLinkInput := false;
      linkUrl := "";
      showTypeFilter := false;
      isExpanded := false;
      this.store := store;
    }

    /** handleAddSticky, at the position the caller drew at random. */
    method AddSticky(color: CardColor, size: CardSize, position: Position, id: string)
      modifies this, store
      ensures store.board == old(store.board).(cards := BoardStore.AddCard(old(store.board).cards, StickyDraft(color, size, position), id))
      ensures store.search == old(store.search) && store.uploads == old(store.uploads)
      ensures !isExpanded
      ensures showLinkInput == old(showLinkInput) && linkUrl == old(linkUrl) && showTypeFilter == old(showTypeFilter)
    {
      store.AddCard(StickyDraft(color, size, position), id);
      isExpanded := false;
    }

    method AddPaper(position: Position, id: string)
      modifies this, store
      ensures store.board == old(store.board).(cards := BoardStore.AddCard(old(store.board).cards, PaperDraft(position), id))
      ensures store.search == old(store.search) && store.uploads == old(store.uploads)
      ensures !isExpanded
      ensures showLinkInput == old(showLinkInput) && linkUrl == old(linkUrl) && showTypeFilter == old(showTypeFilter)
    {
      store.AddCard(PaperDraft(position), id);
      isExpanded := false;
    }

    /** handleAddLink: a URL that is blank once trimmed changes nothing;
        otherwise the trimmed URL is added, the input is cleared and hidden
        and the menu collapses. */
    method AddLink(position: Position, id: string)
      modifies this, store
      ensures IsBlank(old(linkUrl)) ==>
                && store.board == old(store.board)
                && linkUrl == old(linkUrl) && showLinkInput == old(showLinkInput) && isExpanded == old(isExpanded)
      ensures !IsBlank(old(linkUrl)) ==>
                && store.board == old(store.board).(cards := BoardStore.AddCard(old(store.board).cards,
                                                       LinkCardDraft(Trim(old(linkUrl)), position), id))
                && linkUrl == "" && !showLinkInput && !isExpanded
      ensures store.search == old(store.search) && store.uploads == old(store.uploads)
      ensures showTypeFilter == old(showTypeFilter)
    {
      TrimSpec(linkUrl);
      if Trim(linkUrl) != "" {
        store.AddLinkCard(Trim(linkUrl), position, id);
        linkUrl := "";
        showLinkInput := false;
        isExpanded := false;
      }
    }

    /** handleLinkKeyPress: Enter adds the link, Escape hides and clears the
        input without adding, any other key does nothing. */
    method LinkKeyPress(key: string, position: Position, id: string)
      modifies this, store
      ensures key == "Enter" && !IsBlank(old(linkUrl)) ==>
                store.board == old(store.board).(cards := BoardStore.AddCard(old(store.board).cards,
                                                     LinkCardDraft(Trim(old(linkUrl)), position), id))
                && linkUrl == "" && !showLinkInput && !isExpanded
      ensures key == "Enter" && IsBlank(old(linkUrl)) ==>
                store.board == old(store.board) && linkUrl == old(linkUrl)
                && showLinkInput == old(showLinkInput) && isExpanded == old(isExpanded)
      ensures key == "Escape" ==>
                store.board == old(store.board) && linkUrl == "" && !showLinkInput && !isExpanded
      ensures key != "Enter" && key != "Escape" ==>
                store.board == old(store.board) && linkUrl == old(linkUrl)
                && showLinkInput == old(showLinkInput) && isExpanded == old(isExpanded)
      ensures store.search == old(store.search) && store.uploads == old(store.uploads)
      ensures showTypeFilter == old(showTypeFilter)
    {
      if key == "Enter" {
        AddLink(position, id);
      } else if key == "Escape" {
        showLinkInput := false;
        linkUrl := "";
        isExpanded := false;
      }
    }

    /** handleSearch: only the query changes. */
    method Search(query: string)
      modifies store
      ensures store.search == old(store.search).(query := query)
      ensures store.board == old(store.board) && store.uploads == old(store.uploads)
    {
      store.UpdateSearchState(SearchUpdate(Some(query), None, None, None));
    }

    method TypeFilterToggle(t: CardType)
      modifies store
      ensures store.search == old(store.search).(typeFilters := ToggleType(old(store.search).typeFilters, t))
      ensures store.board == old(store.board) && store.uploads == old(store.uploads)
    {
      store.UpdateSearchState(SearchUpdate(None, Some(ToggleType(store.search.typeFilters, t)), None, None));
    }

    method ClearTypeFilters()
      modifies store
      ensures store.search == old(store.search).(query := "", typeFilters := [], tagFilters := [])
      ensures store.board == old(store.board) && store.uploads == old(store.uploads)
    {
      store.UpdateSearchState(ClearFilters);
    }

    method ToggleExpanded()
      modifies this
      ensures isExpanded == !old(isExpanded)
      ensures showLinkInput == old(showLinkInput) && linkUrl == old(linkUrl) && showTypeFilter == old(showTypeFilter)
    {
      isExpanded := !isExpanded;
    }

    /** The filter button opens or closes the type-filter panel. */
    method ToggleTypeFilterPanel()
      modifies this
      ensures showTypeFilter == !old(showTypeFilter)
      ensures showLinkInput == old(showLinkInput) && linkUrl == old(linkUrl) && isExpanded == old(isExpanded)
    {
      showTypeFilter := !showTypeFilter;
    }

    /** The panel's close button hides it. */
    method CloseTypeFilterPanel()
      modifies this
      ensures !showTypeFilter
      ensures showLinkInput == old(showLinkInput) && linkUrl == old(linkUrl) && isExpanded == old(isExpanded)
    {
      showTypeFilter := false;
    }

    /** The link button shows the URL input. */
    method OpenLinkInput()
      modifies this
      ensures showLinkInput
      ensures linkUrl == old(linkUrl) && showTypeFilter == old(showTypeFilter) && isExpanded == old(isExpanded)
    {
      showLinkInput := true;
    }

    method SetLinkUrl(url: string)
      modifies this
      ensures linkUrl == url
      ensures showLinkInput == old(showLinkInput) && showTypeFilter == old(showTypeFilter) && isExpanded == old(isExpanded)
    {
      linkUrl := url;
    }
  }
}
