/** The board store of `useBoard`: the card and tag collection, the search
    state and the upload list. Each card or tag operation is a function from
    the previous collection to the next one; module UseBoard holds the
    state those functions update. */
module BoardStore {
  import opened BoardTypes
  import opened Seqs
  import opened Text
  import opened Numbers

  datatype BoardState = BoardState(cards: seq<Card>, tags: seq<Tag>, viewport: Viewport)

  datatype SearchState = SearchState(
    query: string,
    typeFilters: seq<CardType>,
    tagFilters: seq<string>,
    highlighted: seq<string>)

  /** `Partial<typeof searchState>`: the fields an update supplies. */
  datatype SearchUpdate = SearchUpdate(
    query: Option<string>,
    typeFilters: Option<seq<CardType>>,
    tagFilters: Option<seq<string>>,
    highlighted: Option<seq<string>>)

  datatype UploadStatus = Uploading | Completed | Failed

  datatype Upload = Upload(id: string, fileName: string, progress: real, status: UploadStatus, error: Option<string>)

  /** The parts of a browser `File` the upload reads. */
  datatype FileInfo = FileInfo(name: string, size: nat, mime: string)

  /** The outcome of `URL.createObjectURL`: a URL, or a thrown value that
      carries a message when it is an `Error`. */
  datatype ObjectUrl = Url(url: string) | Thrown(message: Option<string>)

  // ---------------------------------------------------------------------
  // Initial content

  function Sticky(id: string, content: string, x: real, y: real, color: CardColor, size: CardSize): Card {
    Card(id, CardType.Sticky, Position(x, y), content, Some(color), Some(size), None, None, None, None)
  }

  /** The sample image, the sixth initial card. */
  const SampleImage := Card("6", Image, Position(600.0, 100.0), "https://picsum.photos/400/300?random=1",
                            None, None, Some(250.0), Some(180.0),
                            Some(map["fileName" := MStr("imagem-exemplo.jpg"), "fileSize" := MStr("245760")]), None)

  const InitialCards: seq<Card> := [
    Sticky("1", "Ideia para o projeto...", 100.0, 100.0, Yellow, Md),
    Sticky("2", "Outra ideia interessante", 300.0, 150.0, Pink, Sm),
    Sticky("3", "Lembrar de implementar isso", 200.0, 300.0, Green, Lg),
    Sticky("4", "Nota importante", 500.0, 200.0, Purple, Md),
    Sticky("5", "Tarefa para hoje", 400.0, 400.0, Blue, Sm),
    SampleImage
  ]

  const InitialBoard := BoardState(InitialCards, [], Viewport(0.0, 0.0, 1.0))

  const EmptySearch := SearchState("", [], [], [])

  /** The sample cards carry six distinct ids. */
  lemma InitialCardsUnique()
    ensures UniqueIds(InitialCards) && |InitialCards| == 6
  {
    forall i, j | 0 <= i < j < |InitialCards| ensures InitialCards[i].id != InitialCards[j].id {
      assert InitialCards[i].id == ["123456"[i]];
      assert InitialCards[j].id == ["123456"[j]];
    }
  }

  // ---------------------------------------------------------------------
  // Updating the card whose id matches

  /** `cards.map(card => card.id === id ? f(card) : card)`. */
  function MapWhere(cards: seq<Card>, id: string, f: Card -> Card): (r: seq<Card>)
  {
    Map(cards, (c: Card) => if c.id == id then f(c) else c)
  }

  /** The shape every per-id update has: one result per card, in order; a
      card whose id matches is replaced by f of it, every other card is kept
      as it was; and with no card of that id nothing changes. */
  lemma MapWhereSpec(cards: seq<Card>, id: string, f: Card -> Card)
    ensures var r := MapWhere(cards, id, f);
            && |r| == |cards|
            && (forall i :: 0 <= i < |cards| && cards[i].id == id ==> r[i] == f(cards[i]))
            && (forall i :: 0 <= i < |cards| && cards[i].id != id ==> r[i] == cards[i])
            && (!HasId(cards, id) ==> r == cards)
  {
    var r := MapWhere(cards, id, f);
    if !HasId(cards, id) {
      assert forall i :: 0 <= i < |cards| ==> r[i] == cards[i];
    }
  }

  /** An update that keeps the id keeps the list of ids. */
  lemma MapWhereKeepsIds(cards: seq<Card>, id: string, f: Card -> Card)
    requires forall c :: f(c).id == c.id
    ensures Ids(MapWhere(cards, id, f)) == Ids(cards)
  {
    MapWhereSpec(cards, id, f);
  }

  function UpdateCardPosition(cards: seq<Card>, id: string, p: Position): (r: seq<Card>)
    ensures |r| == |cards| && Ids(r) == Ids(cards)
    ensures forall i :: 0 <= i < |cards| ==>
              r[i] == if cards[i].id == id then cards[i].(position := p) else cards[i]
    ensures !HasId(cards, id) ==> r == cards
  {
    var f := (c: Card) => c.(position := p);
    MapWhereSpec(cards, id, f);
    MapWhereKeepsIds(cards, id, f);
    MapWhere(cards, id, f)
  }

  function UpdateCardSize(cards: seq<Card>, id: string, width: real, height: real): (r: seq<Card>)
    ensures |r| == |cards| && Ids(r) == Ids(cards)
    ensures forall i :: 0 <= i < |cards| ==>
              r[i] == if cards[i].id == id then cards[i].(width := Some(width), height := Some(height))
                      else cards[i]
    ensures !HasId(cards, id) ==> r == cards
  {
    var f := (c: Card) => c.(width := Some(width), height := Some(height));
    MapWhereSpec(cards, id, f);
    MapWhereKeepsIds(cards, id, f);
    MapWhere(cards, id, f)
  }

  function UpdateCardContent(cards: seq<Card>, id: string, content: string): (r: seq<Card>)
    ensures |r| == |cards| && Ids(r) == Ids(cards)
    ensures forall i :: 0 <= i < |cards| ==>
              r[i] == if cards[i].id == id then cards[i].(content := content) else cards[i]
    ensures !HasId(cards, id) ==> r == cards
  {
    var f := (c: Card) => c.(content := content);
    MapWhereSpec(cards, id, f);
    MapWhereKeepsIds(cards, id, f);
    MapWhere(cards, id, f)
  }

  /** `color` may be undefined, which clears the card's colour. */
  function UpdateCardColor(cards: seq<Card>, id: string, color: Option<CardColor>): (r: seq<Card>)
    ensures |r| == |cards| && Ids(r) == Ids(cards)
    ensures forall i :: 0 <= i < |cards| ==>
              r[i] == if cards[i].id == id then cards[i].(color := color) else cards[i]
    ensures !HasId(cards, id) ==> r == cards
  {
    var f := (c: Card) => c.(color := color);
    MapWhereSpec(cards, id, f);
    MapWhereKeepsIds(cards, id, f);
    MapWhere(cards, id, f)
  }

  /** `{ ...card.metadata, ...updates }`: spreading an absent metadata
      object contributes nothing; later keys win. */
  function MergeMetadata(md: Option<Metadata>, updates: Metadata): (r: Metadata)
    ensures forall k :: k in updates ==> k in r && r[k] == updates[k]
    ensures forall k :: k !in updates ==> (k in r <==> md.Some? && k in md.value)
    ensures forall k :: k !in updates && k in r ==> r[k] == md.value[k]
  {
    (if md.Some? then md.value else map[]) + updates
  }

  /** updateCardTitle: the matching cards get the title in their metadata,
      every other metadata key kept as it was. */
  function UpdateCardTitle(cards: seq<Card>, id: string, title: string): (r: seq<Card>)
    ensures |r| == |cards| && Ids(r) == Ids(cards)
    ensures forall i :: 0 <= i < |cards| && cards[i].id == id ==>
              && r[i].metadata.Some?
              && MetaString(r[i].metadata, "title") == Some(title)
              && (forall k :: k != "title" ==>
                    (k in r[i].metadata.value <==> cards[i].metadata.Some? && k in cards[i].metadata.value))
              && (forall k :: k != "title" && k in r[i].metadata.value ==>
                    r[i].metadata.value[k] == cards[i].metadata.value[k])
              && r[i] == cards[i].(metadata := r[i].metadata)
    ensures forall i :: 0 <= i < |cards| && cards[i].id != id ==> r[i] == cards[i]
  {
    var f := (c: Card) => c.(metadata := Some(MergeMetadata(c.metadata, map["title" := MStr(title)])));
    MapWhereSpec(cards, id, f);
    MapWhereKeepsIds(cards, id, f);
    MapWhere(cards, id, f)
  }

  function UpdateCardMetadata(cards: seq<Card>, id: string, updates: Metadata): (r: seq<Card>)
    ensures |r| == |cards| && Ids(r) == Ids(cards)
    ensures forall i :: 0 <= i < |cards| && cards[i].id == id ==>
              && r[i].metadata == Some(MergeMetadata(cards[i].metadata, updates))
              && r[i] == cards[i].(metadata := r[i].metadata)
    ensures forall i :: 0 <= i < |cards| && cards[i].id != id ==> r[i] == cards[i]
  {
    var f := (c: Card) => c.(metadata := Some(MergeMetadata(c.metadata, updates)));
    MapWhereSpec(cards, id, f);
    MapWhereKeepsIds(cards, id, f);
    MapWhere(cards, id, f)
  }

  // ---------------------------------------------------------------------
  // Adding, removing and duplicating cards

  /** The card addCard builds: the draft with the given id, colour defaulted
      to yellow and size to medium. */
  function NewCard(d: CardDraft, id: string): Card {
    Card(id, d.kind, d.position, d.content,
         Some(if d.color.Some? then d.color.value else Yellow),
         Some(if d.size.Some? then d.size.value else Md),
         d.width, d.height, d.metadata, d.tags)
  }

  function AddCard(cards: seq<Card>, d: CardDraft, id: string): (r: seq<Card>)
    ensures |r| == |cards| + 1 && r[..|cards|] == cards
    ensures var c := r[|cards|];
            && c.id == id && c.kind == d.kind && c.position == d.position && c.content == d.content
            && c.width == d.width && c.height == d.height && c.metadata == d.metadata && c.tags == d.tags
            && c.color == Some(if d.color.None? then Yellow else d.color.value)
            && c.size == Some(if d.size.None? then Md else d.size.value)
  {
    cards + [NewCard(d, id)]
  }

  /** `card => card.id !== id`. */
  function NotId(id: string): Card -> bool {
    (c: Card) => c.id != id
  }

  function RemoveCard(cards: seq<Card>, id: string): (r: seq<Card>)
    ensures !HasId(r, id)
    ensures |r| <= |cards|
  {
    Filter(cards, NotId(id))
  }

  /** removeCard keeps every other card exactly as often as it was there,
      keeps the order (it splits over concatenation) and does nothing when
      the id is absent. */
  lemma RemoveCardSpec(cards: seq<Card>, id: string)
    ensures forall c :: multiset(RemoveCard(cards, id))[c] == if c.id == id then 0 else multiset(cards)[c]
    ensures forall a, b :: RemoveCard(a + b, id) == RemoveCard(a, id) + RemoveCard(b, id)
    ensures !HasId(cards, id) ==> RemoveCard(cards, id) == cards
  {
    forall c ensures multiset(RemoveCard(cards, id))[c] == if c.id == id then 0 else multiset(cards)[c] {
      FilterCount(cards, NotId(id), c);
    }
    forall a, b ensures RemoveCard(a + b, id) == RemoveCard(a, id) + RemoveCard(b, id) {
      FilterConcat(a, b, NotId(id));
    }
    if !HasId(cards, id) {
      FilterAll(cards, NotId(id));
    }
  }

  /** duplicateCard appends a copy moved by (+20, +20) under a new id. */
  function DuplicateCard(cards: seq<Card>, card: Card, id: string): (r: seq<Card>)
    ensures |r| == |cards| + 1 && r[..|cards|] == cards
    ensures r[|cards|].id == id
    ensures r[|cards|].position == Add(card.position, Position(20.0, 20.0))
    ensures r[|cards|].(id := card.id, position := card.position) == card
  {
    cards + [card.(id := id, position := Position(card.position.x + 20.0, card.position.y + 20.0))]
  }

  // ---------------------------------------------------------------------
  // Tags

  function AddTag(tags: seq<Tag>, name: string, color: TagColor, id: string): (r: seq<Tag>)
    ensures |r| == |tags| + 1 && r[..|tags|] == tags && r[|tags|] == Tag(id, name, color)
  {
    tags + [Tag(id, name, color)]
  }

  function TagNotId(id: string): Tag -> bool {
    (t: Tag) => t.id != id
  }

  function NotEq(id: string): string -> bool {
    (s: string) => s != id
  }

  /** `tags?.filter(id => id !== tagId)`: an absent list stays absent. */
  function StripTag(tags: Option<seq<string>>, tagId: string): (r: Option<seq<string>>)
    ensures r.None? <==> tags.None?
    ensures r.Some? ==> tagId !in r.value
  {
    if tags.None? then None
    else
      var kept := Filter(tags.value, NotEq(tagId));
      FilterMembership(tags.value, NotEq(tagId), tagId);
      Some(kept)
  }

  function RemoveTag(b: BoardState, tagId: string): (r: BoardState)
    ensures r.viewport == b.viewport
    ensures |r.cards| == |b.cards| && Ids(r.cards) == Ids(b.cards)
    ensures forall i :: 0 <= i < |b.cards| ==>
              r.cards[i] == b.cards[i].(tags := StripTag(b.cards[i].tags, tagId))
  {
    BoardState(b.cards, Filter(b.tags, TagNotId(tagId)), b.viewport).(
      cards := Map(b.cards, (c: Card) => c.(tags := StripTag(c.tags, tagId))))
  }

  /** After removeTag no tag has that id and no card lists it; every other
      tag and every other tag id of a card is kept with its multiplicity. */
  lemma RemoveTagSpec(b: BoardState, tagId: string)
    ensures var r := RemoveTag(b, tagId);
            && (forall t :: t in r.tags ==> t.id != tagId)
            && (forall t: Tag :: t.id != tagId ==> multiset(r.tags)[t] == multiset(b.tags)[t])
            && (forall i :: 0 <= i < |r.cards| && r.cards[i].tags.Some? ==> tagId !in r.cards[i].tags.value)
            && (forall i, s :: 0 <= i < |r.cards| && b.cards[i].tags.Some? && s != tagId ==>
                  multiset(r.cards[i].tags.value)[s] == multiset(b.cards[i].tags.value)[s])
  {
    var r := RemoveTag(b, tagId);
    forall t: Tag | t.id != tagId ensures multiset(r.tags)[t] == multiset(b.tags)[t] {
      FilterCount(b.tags, TagNotId(tagId), t);
    }
    forall i, s | 0 <= i < |r.cards| && b.cards[i].tags.Some? && s != tagId
      ensures multiset(r.cards[i].tags.value)[s] == multiset(b.cards[i].tags.value)[s]
    {
      FilterCount(b.cards[i].tags.value, NotEq(tagId), s);
    }
  }

  /** `[...(card.tags || []), tagId]` on the matching card. */
  function AddTagToCard(cards: seq<Card>, cardId: string, tagId: string): (r: seq<Card>)
    ensures |r| == |cards| && Ids(r) == Ids(cards)
    ensures forall i :: 0 <= i < |cards| && cards[i].id == cardId ==>
              && r[i].tags == Some((if cards[i].tags.Some? then cards[i].tags.value else []) + [tagId])
              && r[i] == cards[i].(tags := r[i].tags)
    ensures forall i :: 0 <= i < |cards| && cards[i].id != cardId ==> r[i] == cards[i]
  {
    var f := (c: Card) => c.(tags := Some((if c.tags.Some? then c.tags.value else []) + [tagId]));
    MapWhereSpec(cards, cardId, f);
    MapWhereKeepsIds(cards, cardId, f);
    MapWhere(cards, cardId, f)
  }

  function RemoveTagFromCard(cards: seq<Card>, cardId: string, tagId: string): (r: seq<Card>)
    ensures |r| == |cards| && Ids(r) == Ids(cards)
    ensures forall i :: 0 <= i < |cards| && cards[i].id == cardId ==>
              && r[i] == cards[i].(tags := StripTag(cards[i].tags, tagId))
    ensures forall i :: 0 <= i < |cards| && cards[i].id != cardId ==> r[i] == cards[i]
  {
    var f := (c: Card) => c.(tags := StripTag(c.tags, tagId));
    MapWhereSpec(cards, cardId, f);
    MapWhereKeepsIds(cards, cardId, f);
    MapWhere(cards, cardId, f)
  }

  /** Tagging a card appends the id even when it is already there, and
      removing it afterwards takes away every occurrence. */
  lemma AddThenRemoveTag(cards: seq<Card>, cardId: string, tagId: string, i: int)
    requires 0 <= i < |cards| && cards[i].id == cardId
    ensures var added := AddTagToCard(cards, cardId, tagId);
            && |added[i].tags.value| == (if cards[i].tags.Some? then |cards[i].tags.value| else 0) + 1
            && added[i].tags.value[|added[i].tags.value| - 1] == tagId
            && var removed := RemoveTagFromCard(added, cardId, tagId);
               tagId !in removed[i].tags.value
  {
  }

  // ---------------------------------------------------------------------
  // Searching and filtering

  /** A card matches a lowercased query when the query occurs in its
      lowercased content, string title or string file name. */
  predicate Matches(c: Card, lowerQuery: string) {
    || Contains(Lower(c.content), lowerQuery)
    || (MetaString(c.metadata, "title").Some? && Contains(Lower(MetaString(c.metadata, "title").value), lowerQuery))
    || (MetaString(c.metadata, "fileName").Some? && Contains(Lower(MetaString(c.metadata, "fileName").value), lowerQuery))
  }

  function MatchesQuery(lowerQuery: string): Card -> bool {
    (c: Card) => Matches(c, lowerQuery)
  }

  function SearchCards(cards: seq<Card>, query: string): (r: seq<Card>)
    ensures Trim(query) == "" ==> r == cards
    ensures Trim(query) != "" ==> forall i :: 0 <= i < |r| ==> Matches(r[i], Lower(query))
  {
    if Trim(query) == "" then cards else Filter(cards, MatchesQuery(Lower(query)))
  }

  /** For a non-blank query each card is kept exactly as often as it occurs
      when the lowercased query occurs in its content, title or file name,
      and the kept cards stay in board order. */
  lemma SearchCardsSpec(cards: seq<Card>, query: string)
    requires Trim(query) != ""
    ensures forall c :: multiset(SearchCards(cards, query))[c] ==
              if Matches(c, Lower(query)) then multiset(cards)[c] else 0
    ensures forall a, b :: SearchCards(a + b, query) == SearchCards(a, query) + SearchCards(b, query)
  {
    forall c ensures multiset(SearchCards(cards, query))[c] ==
                     if Matches(c, Lower(query)) then multiset(cards)[c] else 0 {
      FilterCount(cards, MatchesQuery(Lower(query)), c);
    }
    forall a, b ensures SearchCards(a + b, query) == SearchCards(a, query) + SearchCards(b, query) {
      FilterConcat(a, b, MatchesQuery(Lower(query)));
    }
  }

  /** A search is blank exactly when the query is all white space. */
  lemma BlankQuery(query: string)
    ensures Trim(query) == "" <==> IsBlank(query)
  {
    TrimSpec(query);
  }

  /** `card.tags?.some(tagId => tagIds.includes(tagId))`. */
  predicate HasAnyTag(c: Card, tagIds: seq<string>) {
    c.tags.Some? && exists i :: 0 <= i < |c.tags.value| && c.tags.value[i] in tagIds
  }

  function Tagged(tagIds: seq<string>): Card -> bool {
    (c: Card) => HasAnyTag(c, tagIds)
  }

  function OfType(types: seq<CardType>): Card -> bool {
    (c: Card) => c.kind in types
  }

  function FilterCardsByTags(cards: seq<Card>, tagIds: seq<string>): (r: seq<Card>)
    ensures |tagIds| == 0 ==> r == cards
    ensures |tagIds| > 0 ==> forall i :: 0 <= i < |r| ==> r[i].tags.Some? && HasAnyTag(r[i], tagIds)
  {
    if |tagIds| == 0 then cards else Filter(cards, Tagged(tagIds))
  }

  function FilterCardsByType(cards: seq<Card>, types: seq<CardType>): (r: seq<Card>)
    ensures |types| == 0 ==> r == cards
    ensures |types| > 0 ==> forall i :: 0 <= i < |r| ==> r[i].kind in types
  {
    if |types| == 0 then cards else Filter(cards, OfType(types))
  }

  /** A card with no tag list never passes a non-empty tag filter, and a
      card passes a non-empty type filter exactly when its kind is listed. */
  lemma FilterCardsSpec(cards: seq<Card>, tagIds: seq<string>, types: seq<CardType>, c: Card)
    ensures |tagIds| > 0 ==>
              (c in FilterCardsByTags(cards, tagIds) <==> c in cards && HasAnyTag(c, tagIds))
    ensures |tagIds| > 0 && c.tags.None? ==> c !in FilterCardsByTags(cards, tagIds)
    ensures |types| > 0 ==>
              (c in FilterCardsByType(cards, types) <==> c in cards && c.kind in types)
  {
    FilterMembership(cards, Tagged(tagIds), c);
    FilterMembership(cards, OfType(types), c);
  }

  /** The three criteria of the search bar, each switched off when empty. */
  function QueryPass(query: string): Card -> bool {
    (c: Card) => Trim(query) == "" || Matches(c, Lower(query))
  }

  function TypePass(types: seq<CardType>): Card -> bool {
    (c: Card) => |types| == 0 || c.kind in types
  }

  function TagPass(tagIds: seq<string>): Card -> bool {
    (c: Card) => |tagIds| == 0 || HasAnyTag(c, tagIds)
  }

  function QueryTypePass(st: SearchState): Card -> bool {
    (c: Card) => QueryPass(st.query)(c) && TypePass(st.typeFilters)(c)
  }

  function Selected(st: SearchState): Card -> bool {
    (c: Card) => QueryTypePass(st)(c) && TagPass(st.tagFilters)(c)
  }

  /** The cards getFilteredAndHighlightedCards returns: the query, then the
      type filter, then the tag filter, each skipped when empty. */
  function FilteredCards(cards: seq<Card>, st: SearchState): seq<Card> {
    var a := if Trim(st.query) != "" then SearchCards(cards, st.query) else cards;
    var b := if |st.typeFilters| > 0 then Filter(a, OfType(st.typeFilters)) else a;
    if |st.tagFilters| > 0 then Filter(b, Tagged(st.tagFilters)) else b
  }

  /** Applying the three filters in turn is one filter by their
      conjunction: the result is the cards, in board order, that meet every
      active criterion. */
  lemma FilteredCardsSpec(cards: seq<Card>, st: SearchState)
    ensures FilteredCards(cards, st) == Filter(cards, Selected(st))
  {
    var a := if Trim(st.query) != "" then SearchCards(cards, st.query) else cards;
    var b := if |st.typeFilters| > 0 then Filter(a, OfType(st.typeFilters)) else a;
    var q, t, g := QueryPass(st.query), TypePass(st.typeFilters), TagPass(st.tagFilters);
    if Trim(st.query) != "" {
      FilterSame(cards, MatchesQuery(Lower(st.query)), q);
    } else {
      FilterAll(cards, q);
    }
    assert a == Filter(cards, q);
    if |st.typeFilters| > 0 {
      FilterSame(a, OfType(st.typeFilters), t);
    } else {
      FilterAll(a, t);
    }
    assert b == Filter(a, t);
    if |st.tagFilters| > 0 {
      FilterSame(b, Tagged(st.tagFilters), g);
    } else {
      FilterAll(b, g);
    }
    assert FilteredCards(cards, st) == Filter(b, g);
    FilterFilter(cards, q, t, QueryTypePass(st));
    FilterFilter(cards, QueryTypePass(st), g, Selected(st));
  }

  /** With every criterion empty, all cards are returned. */
  lemma FilteredCardsNoCriteria(cards: seq<Card>, st: SearchState)
    requires Trim(st.query) == "" && |st.typeFilters| == 0 && |st.tagFilters| == 0
    ensures FilteredCards(cards, st) == cards
  {
  }

  /** The highlighted ids are written only when their comma-joined form
      differs from the stored one. */
  function HighlightWrite(ids: seq<string>, highlighted: seq<string>): Option<seq<string>> {
    if Join(ids, ",") != Join(highlighted, ",") then Some(ids) else None
  }

  predicate PlainIds(ids: seq<string>) {
    forall i :: 0 <= i < |ids| ==> |ids[i]| > 0 && ',' !in ids[i]
  }

  /** For ids that are non-empty and free of commas, as the board's ids
      are, comparing the joined strings is comparing the lists: the state is
      written exactly when the highlighted ids change. */
  lemma HighlightWriteSpec(ids: seq<string>, highlighted: seq<string>)
    requires PlainIds(ids) && PlainIds(highlighted)
    ensures HighlightWrite(ids, highlighted).Some? <==> ids != highlighted
  {
    if Join(ids, ",") == Join(highlighted, ",") {
      JoinInjective(ids, highlighted);
    }
  }

  /** The joined string of plain ids begins with the first id followed by a
      comma when there is more than one. */
  lemma JoinHead(ids: seq<string>)
    requires PlainIds(ids) && |ids| > 0
    ensures |Join(ids, ",")| >= |ids[0]|
    ensures Join(ids, ",")[..|ids[0]|] == ids[0]
    ensures |ids| == 1 ==> Join(ids, ",") == ids[0]
    ensures |ids| > 1 ==> |Join(ids, ",")| > |ids[0]| && Join(ids, ",")[|ids[0]|] == ','
                          && Join(ids, ",")[|ids[0]| + 1..] == Join(ids[1..], ",")
  {
    if |ids| > 1 {
      var s := Join(ids, ",");
      assert s == ids[0] + "," + Join(ids[1..], ",");
      assert s[|ids[0]| + 1..] == Join(ids[1..], ",");
    }
  }

  lemma JoinNonEmpty(ids: seq<string>)
    requires PlainIds(ids) && |ids| > 0
    ensures |Join(ids, ",")| > 0
  {
    JoinHead(ids);
  }

  lemma {:induction false} JoinInjective(a: seq<string>, b: seq<string>)
    requires PlainIds(a) && PlainIds(b)
    requires Join(a, ",") == Join(b, ",")
    ensures a == b
    decreases |a|
  {
    if |a| == 0 {
      if |b| > 0 { JoinNonEmpty(b); }
    } else if |b| == 0 {
      JoinNonEmpty(a);
    } else {
      JoinHead(a);
      JoinHead(b);
      SameFirstId(a, b);
      if |a| > 1 && |b| > 1 {
        JoinInjective(a[1..], b[1..]);
        assert a == [a[0]] + a[1..];
        assert b == [b[0]] + b[1..];
      }
    }
  }

  /** Two lists of plain ids with the same joined string open with the
      same id, and both have one id or both have more. */
  lemma SameFirstId(a: seq<string>, b: seq<string>)
    requires PlainIds(a) && PlainIds(b) && |a| > 0 && |b| > 0
    requires Join(a, ",") == Join(b, ",")
    ensures a[0] == b[0] && (|a| == 1 <==> |b| == 1)
  {
    var s := Join(a, ",");
    JoinHead(a);
    JoinHead(b);
    if |a[0]| < |b[0]| {
      assert s[|a[0]|] == b[0][|a[0]|];
    } else if |b[0]| < |a[0]| {
      assert s[|b[0]|] == a[0][|b[0]|];
    }
  }

  function ApplySearchUpdate(st: SearchState, u: SearchUpdate): (r: SearchState)
    ensures r.query == (if u.query.Some? then u.query.value else st.query)
    ensures r.typeFilters == (if u.typeFilters.Some? then u.typeFilters.value else st.typeFilters)
    ensures r.tagFilters == (if u.tagFilters.Some? then u.tagFilters.value else st.tagFilters)
    ensures r.highlighted == (if u.highlighted.Some? then u.highlighted.value else st.highlighted)
  {
    SearchState(
      if u.query.Some? then u.query.value else st.query,
      if u.typeFilters.Some? then u.typeFilters.value else st.typeFilters,
      if u.tagFilters.Some? then u.tagFilters.value else st.tagFilters,
      if u.highlighted.Some? then u.highlighted.value else st.highlighted)
  }

  /** An update that supplies nothing changes nothing; applying an update
      twice is applying it once. */
  lemma SearchUpdateIdempotent(st: SearchState, u: SearchUpdate)
    ensures ApplySearchUpdate(st, SearchUpdate(None, None, None, None)) == st
    ensures ApplySearchUpdate(ApplySearchUpdate(st, u), u) == ApplySearchUpdate(st, u)
  {
  }

  // ---------------------------------------------------------------------
  // Drag offsets

  /** startDragging: the pointer's offset from the card, or (0, 0) when no
      card has that id. */
  function StartDragging(cards: seq<Card>, id: string, mouse: Position): (r: Position)
    ensures !HasId(cards, id) ==> r == Origin
    ensures HasId(cards, id) ==> Add(FindCard(cards, id).value.position, r) == mouse
  {
    match FindCard(cards, id)
    case Some(c) => Sub(mouse, c.position)
    case None => Origin
  }

  function UpdateDraggedPosition(cards: seq<Card>, id: string, mouse: Position, offset: Position): seq<Card> {
    UpdateCardPosition(cards, id, Sub(mouse, offset))
  }

  /** Moving with the offset startDragging returned, at the same pointer
      position, leaves a board of distinct ids exactly as it was. */
  lemma DragWithoutMoving(cards: seq<Card>, id: string, mouse: Position)
    requires UniqueIds(cards) && HasId(cards, id)
    ensures UpdateDraggedPosition(cards, id, mouse, StartDragging(cards, id, mouse)) == cards
  {
    var c := FindCard(cards, id).value;
    var r := UpdateDraggedPosition(cards, id, mouse, StartDragging(cards, id, mouse));
    assert Sub(mouse, Sub(mouse, c.position)) == c.position;
    forall i | 0 <= i < |cards| ensures r[i] == cards[i] {
      if cards[i].id == id {
        var k :| 0 <= k < |cards| && cards[k] == c && c.id == id;
        assert k == i;
      }
    }
  }

  /** The drag formulas are inverse: the position reached is where the
      pointer is, less the captured offset. */
  lemma DraggedPosition(cards: seq<Card>, id: string, mouse: Position, offset: Position, i: int)
    requires 0 <= i < |cards| && cards[i].id == id
    ensures Add(UpdateDraggedPosition(cards, id, mouse, offset)[i].position, offset) == mouse
  {
  }

  // ---------------------------------------------------------------------
  // Uploads

  /** The simulated upload time in seconds: the size in megabytes, kept
      within half a second and three seconds. */
  function UploadDuration(size: nat): (d: real)
    ensures 0.5 <= d <= 3.0
    ensures 0.5 <= size as real / 1000000.0 <= 3.0 ==> d == size as real / 1000000.0
  {
    var mb := size as real / 1000000.0;
    var atLeast := if mb > 0.5 then mb else 0.5;
    if atLeast < 3.0 then atLeast else 3.0
  }

  const ProgressSteps := 20

  /** The progress written at step i of the upload loop. */
  function Progress(i: int): real {
    i as real / ProgressSteps as real * 100.0
  }

  /** The metadata an uploaded file's card records: its name, its size as
      a decimal string, and its type. */
  function FileMetadata(f: FileInfo): (md: Metadata)
    ensures "fileName" in md && md["fileName"] == MStr(f.name)
    ensures "fileType" in md && md["fileType"] == MStr(f.mime)
    ensures "fileSize" in md && md["fileSize"] == MStr(IntToString(f.size))
    ensures "filename" !in md
  {
    assert "fileName"[4] == 'N' && "fileSize"[4] == 'S' && "fileType"[4] == 'T' && "filename"[4] == 'n';
    map["fileName" := MStr(f.name), "fileSize" := MStr(IntToString(f.size)), "fileType" := MStr(f.mime)]
  }

  /** The card data an uploaded file becomes: images and PDFs show the
      file's URL, anything else a sticky naming the file; all record the
      file's name, size and type. */
  function FileCardDraft(f: FileInfo, url: string, position: Position): (d: CardDraft)
    ensures StartsWith(f.mime, "image/") ==> d.kind == Image && d.content == url
    ensures !StartsWith(f.mime, "image/") && f.mime == "application/pdf" ==> d.kind == Pdf && d.content == url
    ensures !StartsWith(f.mime, "image/") && f.mime != "application/pdf" ==>
              d.kind == CardType.Sticky && d.content == "Arquivo: " + f.name
    ensures d.position == position
    ensures MetaString(d.metadata, "fileName") == Some(f.name)
    ensures MetaString(d.metadata, "fileType") == Some(f.mime)
    ensures MetaString(d.metadata, "fileSize").Some?
            && ParseInt(MetaString(d.metadata, "fileSize").value) == Some(f.size)
    ensures d.color.None? && d.size.None? && d.width.None? && d.height.None? && d.tags.None?
    ensures d.metadata == Some(FileMetadata(f))
  {
    ParseIntToString(f.size);
    var md := FileMetadata(f);
    var kind := if StartsWith(f.mime, "image/") then Image
                else if f.mime == "application/pdf" then Pdf
                else CardType.Sticky;
    var content := if kind == CardType.Sticky then "Arquivo: " + f.name else url;
    CardDraft(kind, position, content, None, None, None, None, Some(md), None)
  }

  function LinkCardDraft(url: string, position: Position): (d: CardDraft)
    ensures d.kind == Link && d.content == url && d.position == position
    ensures MetaString(d.metadata, "url") == Some(url)
    ensures MetaString(d.metadata, "title") == Some("Link")
    ensures MetaString(d.metadata, "description") == Some("Clique para abrir")
  {
    CardDraft(Link, position, url, None, None, None, None,
              Some(map["title" := MStr("Link"), "description" := MStr("Clique para abrir"), "url" := MStr(url)]), None)
  }

  function UploadIdIs(id: string): Upload -> bool {
    (u: Upload) => u.id == id
  }

  function UploadNotId(id: string): Upload -> bool {
    (u: Upload) => u.id != id
  }

  function SetProgress(uploads: seq<Upload>, id: string, p: real): (r: seq<Upload>)
    ensures |r| == |uploads|
    ensures forall i :: 0 <= i < |uploads| ==>
              r[i] == if uploads[i].id == id then uploads[i].(progress := p) else uploads[i]
  {
    Map(uploads, (u: Upload) => if u.id == id then u.(progress := p) else u)
  }

  /** Only the last progress written survives. */
  lemma SetProgressTwice(uploads: seq<Upload>, id: string, p: real, q: real)
    ensures SetProgress(SetProgress(uploads, id, p), id, q) == SetProgress(uploads, id, q)
  {
  }

  function SetStatus(uploads: seq<Upload>, id: string, st: UploadStatus, err: Option<string>): (r: seq<Upload>)
    ensures |r| == |uploads|
    ensures forall i :: 0 <= i < |uploads| ==>
              r[i] == if uploads[i].id == id then uploads[i].(status := st, error := err) else uploads[i]
  {
    Map(uploads, (u: Upload) => if u.id == id then u.(status := st, error := err) else u)
  }

  /** Marking an upload completed sets only its status: an error recorded
      earlier under the same id stays. */
  function MarkCompleted(uploads: seq<Upload>, id: string): (r: seq<Upload>)
    ensures |r| == |uploads|
    ensures forall i :: 0 <= i < |uploads| ==>
              r[i] == if uploads[i].id == id then uploads[i].(status := Completed) else uploads[i]
  {
    Map(uploads, (u: Upload) => if u.id == id then u.(status := Completed) else u)
  }

  /** The error message an upload records: the Error's message, or a fixed
      text for anything else thrown. */
  function UploadError(message: Option<string>): string {
    if message.Some? then message.value else "Erro no upload"
  }

  /** The upload list once the loop has run to completion. */
  function UploadedList(uploads: seq<Upload>, id: string, name: string): seq<Upload> {
    SetProgress(uploads + [Upload(id, name, 0.0, Uploading, None)], id, 100.0)
  }

  /** The cards after addFileCard: the file's card is added when its object
      URL was created; a throw leaves them as they were. */
  function UploadCards(cards: seq<Card>, f: FileInfo, position: Position, cardId: string, objectUrl: ObjectUrl): seq<Card> {
    match objectUrl
    case Url(url) => AddCard(cards, FileCardDraft(f, url, position), cardId)
    case Thrown(_) => cards
  }

  /** The upload list after addFileCard: the entry is registered, brought to
      100 %, and marked completed or failed with the thrown message. */
  function UploadEntries(uploads: seq<Upload>, f: FileInfo, uploadId: string, objectUrl: ObjectUrl): seq<Upload> {
    match objectUrl
    case Url(_) => MarkCompleted(UploadedList(uploads, uploadId, f.name), uploadId)
    case Thrown(message) => SetStatus(UploadedList(uploads, uploadId, f.name), uploadId, Failed, Some(UploadError(message)))
  }

  /** addFileCard appends exactly one entry, with the upload's id, name and
      100 %, completed without an error or failed with the thrown message as
      the object URL went; every entry of another id is untouched, every id
      is kept, and an older entry under a reused id is brought to 100 % and
      given the same status, keeping its error when the upload completes. */
  lemma UploadEntriesSpec(uploads: seq<Upload>, f: FileInfo, uploadId: string, objectUrl: ObjectUrl)
    ensures var r := UploadEntries(uploads, f, uploadId, objectUrl);
            && |r| == |uploads| + 1
            && r[|uploads|].id == uploadId && r[|uploads|].fileName == f.name && r[|uploads|].progress == 100.0
            && r[|uploads|].status == (if objectUrl.Url? then Completed else Failed)
            && r[|uploads|].error == (if objectUrl.Url? then None else Some(UploadError(objectUrl.message)))
            && (forall i :: 0 <= i < |uploads| ==> r[i].id == uploads[i].id)
            && (forall i :: 0 <= i < |uploads| && uploads[i].id != uploadId ==> r[i] == uploads[i])
            && (forall i :: 0 <= i < |uploads| && uploads[i].id == uploadId && objectUrl.Url? ==>
                  r[i] == uploads[i].(progress := 100.0, status := Completed))
            && forall i :: 0 <= i < |uploads| && uploads[i].id == uploadId && objectUrl.Thrown? ==>
                 r[i] == uploads[i].(progress := 100.0, status := Failed, error := Some(UploadError(objectUrl.message)))
  {
    UploadedListSpec(uploads, uploadId, f.name);
  }

  /** The fresh upload entry ends at 100 % and every entry of another id is
      untouched. */
  lemma UploadedListSpec(uploads: seq<Upload>, id: string, name: string)
    ensures var r := UploadedList(uploads, id, name);
            && |r| == |uploads| + 1
            && r[|uploads|] == Upload(id, name, 100.0, Uploading, None)
            && (forall i :: 0 <= i < |uploads| && uploads[i].id != id ==> r[i] == uploads[i])
            && forall i :: 0 <= i < |uploads| && uploads[i].id == id ==> r[i] == uploads[i].(progress := 100.0)
  {
  }

  /** An id reused after a failed upload: once the new upload completes, the
      old entry reads completed and still carries its error message. */
  lemma ReusedIdKeepsError(f: FileInfo, url: string)
    ensures var prior := Upload("u", "a.png", 40.0, Failed, Some("Erro no upload"));
            UploadEntries([prior], f, "u", Url(url))
              == [Upload("u", "a.png", 100.0, Completed, Some("Erro no upload")),
                  Upload("u", f.name, 100.0, Completed, None)]
  {
    var prior := Upload("u", "a.png", 40.0, Failed, Some("Erro no upload"));
    var r := UploadEntries([prior], f, "u", Url(url));
    UploadEntriesSpec([prior], f, "u", Url(url));
    assert r[0] == prior.(progress := 100.0, status := Completed);
  }

  /** The progress values of the loop run from 0 to 100 in 21 even steps. */
  lemma ProgressSpec()
    ensures Progress(0) == 0.0 && Progress(ProgressSteps) == 100.0
    ensures forall i :: 0 <= i < ProgressSteps ==> Progress(i + 1) == Progress(i) + 5.0
  {
  }

}

/** The `useBoard` hook as a state container: each operation replaces the
    board, search or upload state by the pure update of module BoardStore. */
module UseBoard {
  import opened BoardTypes
  import opened Seqs
  import opened Text
  import opened Numbers
  import opened BoardStore

  class BoardHook {
    var board: BoardState
    var search: SearchState
    var uploads: seq<Upload>

    constructor()
      ensures board == InitialBoard && search == EmptySearch && uploads == []
    {
      board := InitialBoard;
      search := EmptySearch;
      uploads := [];
    }

    method AddCard(d: CardDraft, id: string)
      modifies this
      ensures board == old(board).(cards := BoardStore.AddCard(old(board).cards, d, id))
      ensures search == old(search) && uploads == old(uploads)
    {
      board := board.(cards := BoardStore.AddCard(board.cards, d, id));
    }

    /** addFileCard: register the upload, step its progress from 0 to 100,
        then either add the card and mark the upload completed, or mark it
        failed with the thrown message. `progress` lists the values
        written, in order. */
    method AddFileCard(f: FileInfo, position: Position, uploadId: string, cardId: string, objectUrl: ObjectUrl)
      returns (progress: seq<real>)
      modifies this
      ensures |progress| == ProgressSteps + 1
      ensures forall i :: 0 <= i < |progress| ==> progress[i] == Progress(i)
      ensures objectUrl.Url? ==>
                && uploads == MarkCompleted(UploadedList(old(uploads), uploadId, f.name), uploadId)
                && board == old(board).(cards := BoardStore.AddCard(old(board).cards,
                                                   FileCardDraft(f, objectUrl.url, position), cardId))
      ensures objectUrl.Thrown? ==>
                && uploads == SetStatus(UploadedList(old(uploads), uploadId, f.name), uploadId, Failed,
                                        Some(UploadError(objectUrl.message)))
                && board == old(board)
      ensures search == old(search)
    {
      var start := uploads + [Upload(uploadId, f.name, 0.0, Uploading, None)];
      uploads := start;
      progress := [];
      var i := 0;
      while i <= ProgressSteps
        invariant 0 <= i <= ProgressSteps + 1
        invariant |progress| == i
        invariant forall k :: 0 <= k < i ==> progress[k] == Progress(k)
        invariant uploads == if i == 0 then start else SetProgress(start, uploadId, Progress(i - 1))
        invariant board == old(board) && search == old(search)
      {
        var p := Progress(i);
        if i > 0 {
          SetProgressTwice(start, uploadId, Progress(i - 1), p);
        }
        uploads := SetProgress(uploads, uploadId, p);
        progress := progress + [p];
        i := i + 1;
      }
      assert Progress(ProgressSteps) == 100.0;
      match objectUrl
      case Url(url) =>
        uploads := MarkCompleted(uploads, uploadId);
        AddCard(FileCardDraft(f, url, position), cardId);
      case Thrown(message) =>
        uploads := SetStatus(uploads, uploadId, Failed, Some(UploadError(message)));
    }

    /** The timer that follows an upload: drop its entry. */
    method ExpireUpload(uploadId: string)
      modifies this
      ensures uploads == Filter(old(uploads), UploadNotId(uploadId))
      ensures forall u :: u in uploads ==> u.id != uploadId
      ensures board == old(board) && search == old(search)
    {
      uploads := Filter(uploads, UploadNotId(uploadId));
    }

    method AddLinkCard(url: string, position: Position, id: string)
      modifies this
      ensures board == old(board).(cards := BoardStore.AddCard(old(board).cards, LinkCardDraft(url, position), id))
      ensures search == old(search) && uploads == old(uploads)
    {
      AddCard(LinkCardDraft(url, position), id);
    }

    method UpdateCardPosition(id: string, p: Position)
      modifies this
      ensures board == old(board).(cards := BoardStore.UpdateCardPosition(old(board).cards, id, p))
      ensures search == old(search) && uploads == old(uploads)
    {
      board := board.(cards := BoardStore.UpdateCardPosition(board.cards, id, p));
    }

    method UpdateCardSize(id: string, width: real, height: real)
      modifies this
      ensures board == old(board).(cards := BoardStore.UpdateCardSize(old(board).cards, id, width, height))
      ensures search == old(search) && uploads == old(uploads)
    {
      board := board.(cards := BoardStore.UpdateCardSize(board.cards, id, width, height));
    }

    method RemoveCard(id: string)
      modifies this
      ensures board == old(board).(cards := BoardStore.RemoveCard(old(board).cards, id))
      ensures search == old(search) && uploads == old(uploads)
    {
      board := board.(cards := BoardStore.RemoveCard(board.cards, id));
    }

    method UpdateCardContent(id: string, content: string)
      modifies this
      ensures board == old(board).(cards := BoardStore.UpdateCardContent(old(board).cards, id, content))
      ensures search == old(search) && uploads == old(uploads)
    {
      board := board.(cards := BoardStore.UpdateCardContent(board.cards, id, content));
    }

    method UpdateCardTitle(id: string, title: string)
      modifies this
      ensures board == old(board).(cards := BoardStore.UpdateCardTitle(old(board).cards, id, title))
      ensures search == old(search) && uploads == old(uploads)
    {
      board := board.(cards := BoardStore.UpdateCardTitle(board.cards, id, title));
    }

    method UpdateCardMetadata(id: string, updates: Metadata)
      modifies this
      ensures board == old(board).(cards := BoardStore.UpdateCardMetadata(old(board).cards, id, updates))
      ensures search == old(search) && uploads == old(uploads)
    {
      board := board.(cards := BoardStore.UpdateCardMetadata(board.cards, id, updates));
    }

    method UpdateDraggedPosition(id: string, mouse: Position, offset: Position)
      modifies this
      ensures board == old(board).(cards := BoardStore.UpdateDraggedPosition(old(board).cards, id, mouse, offset))
      ensures search == old(search) && uploads == old(uploads)
    {
      UpdateCardPosition(id, Sub(mouse, offset));
    }

    method AddTag(name: string, color: TagColor, id: string) returns (t: Tag)
      modifies this
      ensures t == Tag(id, name, color)
      ensures board == old(board).(tags := BoardStore.AddTag(old(board).tags, name, color, id))
      ensures search == old(search) && uploads == old(uploads)
    {
      t := Tag(id, name, color);
      board := board.(tags := BoardStore.AddTag(board.tags, name, color, id));
    }

    method RemoveTag(tagId: string)
      modifies this
      ensures board == BoardStore.RemoveTag(old(board), tagId)
      ensures search == old(search) && uploads == old(uploads)
    {
      board := BoardStore.RemoveTag(board, tagId);
    }

    method AddTagToCard(cardId: string, tagId: string)
      modifies this
      ensures board == old(board).(cards := BoardStore.AddTagToCard(old(board).cards, cardId, tagId))
      ensures search == old(search) && uploads == old(uploads)
    {
      board := board.(cards := BoardStore.AddTagToCard(board.cards, cardId, tagId));
    }

    method RemoveTagFromCard(cardId: string, tagId: string)
      modifies this
      ensures board == old(board).(cards := BoardStore.RemoveTagFromCard(old(board).cards, cardId, tagId))
      ensures search == old(search) && uploads == old(uploads)
    {
      board := board.(cards := BoardStore.RemoveTagFromCard(board.cards, cardId, tagId));
    }

    method UpdateSearchState(u: SearchUpdate)
      modifies this
      ensures search == ApplySearchUpdate(old(search), u)
      ensures board == old(board) && uploads == old(uploads)
    {
      search := ApplySearchUpdate(search, u);
    }

    /** Returns the cards that meet every active criterion, in board order,
        and records their ids as highlighted when the joined ids differ. */
    method GetFilteredAndHighlightedCards() returns (r: seq<Card>)
      modifies this
      ensures r == Filter(old(board).cards, Selected(old(search)))
      ensures var w := HighlightWrite(Ids(r), old(search).highlighted);
              search == if w.Some? then old(search).(highlighted := w.value) else old(search)
      ensures board == old(board) && uploads == old(uploads)
    {
      r := FilteredCards(board.cards, search);
      FilteredCardsSpec(board.cards, search);
      var ids := Ids(r);
      if Join(ids, ",") != Join(search.highlighted, ",") {
        search := search.(highlighted := ids);
      }
    }

    method DuplicateCard(card: Card, id: string)
      modifies this
      ensures board == old(board).(cards := BoardStore.DuplicateCard(old(board).cards, card, id))
      ensures search == old(search) && uploads == old(uploads)
    {
      board := board.(cards := BoardStore.DuplicateCard(board.cards, card, id));
    }

    method UpdateCardColor(id: string, color: Option<CardColor>)
      modifies this
      ensures board == old(board).(cards := BoardStore.UpdateCardColor(old(board).cards, id, color))
      ensures search == old(search) && uploads == old(uploads)
    {
      board := board.(cards := BoardStore.UpdateCardColor(board.cards, id, color));
    }
  }
}
