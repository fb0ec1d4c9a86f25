/** The shapes of the board's data: cards, tags, positions and the optional
    fields a card may carry. Every union of string literals in the source
    becomes a closed datatype; every optional field becomes an Option. */
module BoardTypes {

  datatype Option<T> = None | Some(value: T)

  /** A point in the plane; coordinates are exact reals. */
  datatype Position = Position(x: real, y: real)

  function Add(p: Position, q: Position): Position {
    Position(p.x + q.x, p.y + q.y)
  }

  function Sub(p: Position, q: Position): Position {
    Position(p.x - q.x, p.y - q.y)
  }

  const Origin := Position(0.0, 0.0)

  /** The board's pan and zoom: a world point w appears on screen at
      w * scale + (x, y). */
  datatype Viewport = Viewport(x: real, y: real, scale: real)

  /** A width/height pair (window, container or board size). */
  datatype Size = Size(width: real, height: real)

  datatype CardType = Sticky | Paper | Image | Link | Pdf

  datatype CardColor = Pink | Yellow | Green | Purple | Blue | Orange

  datatype CardSize = Sm | Md | Lg

  /** A metadata value is a string, a number or a boolean. Numbers are
      modelled as integers. */
  datatype MetaValue = MStr(s: string) | MNum(n: int) | MBool(b: bool)

  type Metadata = map<string, MetaValue>

  datatype Card = Card(
    id: string,
    kind: CardType,
    position: Position,
    content: string,
    color: Option<CardColor>,
    size: Option<CardSize>,
    width: Option<real>,
    height: Option<real>,
    metadata: Option<Metadata>,
    tags: Option<seq<string>>)

  /** A card before it is given an id (the argument of addCard). */
  datatype CardDraft = CardDraft(
    kind: CardType,
    position: Position,
    content: string,
    color: Option<CardColor>,
    size: Option<CardSize>,
    width: Option<real>,
    height: Option<real>,
    metadata: Option<Metadata>,
    tags: Option<seq<string>>)

  datatype TagColor = TRed | TOrange | TYellow | TGreen | TBlue | TIndigo | TPurple | TPink | TGray

  datatype Tag = Tag(id: string, name: string, color: TagColor)

  /** The string-valued entry `key` of a card's metadata, if there is one
      (`typeof card.metadata?.key === 'string'`). */
  function MetaString(md: Option<Metadata>, key: string): Option<string> {
    if md.Some? && key in md.value && md.value[key].MStr? then Some(md.value[key].s) else None
  }

  function CardTypeName(t: CardType): string {
    match t
    case Sticky => "sticky"
    case Paper => "paper"
    case Image => "image"
    case Link => "link"
    case Pdf => "pdf"
  }

  function ColorName(c: CardColor): string {
    match c
    case Pink => "pink"
    case Yellow => "yellow"
    case Green => "green"
    case Purple => "purple"
    case Blue => "blue"
    case Orange => "orange"
  }

  /** The ids of a card list, in order. */
  function Ids(cards: seq<Card>): (r: seq<string>)
    ensures |r| == |cards|
    ensures forall i :: 0 <= i < |cards| ==> r[i] == cards[i].id
  {
    seq(|cards|, i requires 0 <= i < |cards| => cards[i].id)
  }

  predicate HasId(cards: seq<Card>, id: string) {
    exists i :: 0 <= i < |cards| && cards[i].id == id
  }

  predicate UniqueIds(cards: seq<Card>) {
    forall i, j :: 0 <= i < j < |cards| ==> cards[i].id != cards[j].id
  }

  /** `cards.find(c => c.id === id)`: the first card with that id. */
  function FindCard(cards: seq<Card>, id: string): (r: Option<Card>)
    ensures r.None? <==> !HasId(cards, id)
    ensures r.Some? ==> exists i :: 0 <= i < |cards| && cards[i] == r.value && r.value.id == id
                          && forall j :: 0 <= j < i ==> cards[j].id != id
  {
    if |cards| == 0 then None
    else if cards[0].id == id then Some(cards[0])
    else
      var r := FindCard(cards[1..], id);
      assert HasId(cards, id) ==> HasId(cards[1..], id) by {
        if HasId(cards, id) {
          var i :| 0 <= i < |cards| && cards[i].id == id;
          assert i > 0 && cards[1..][i - 1].id == id;
        }
      }
      if r.Some? then
        assert exists i :: 0 <= i < |cards| && cards[i] == r.value && r.value.id == id
                 && forall j :: 0 <= j < i ==> cards[j].id != id by {
          var i :| 0 <= i < |cards[1..]| && cards[1..][i] == r.value && r.value.id == id
                   && forall j :: 0 <= j < i ==> cards[1..][j].id != id;
          assert cards[i + 1] == r.value;
          forall j | 0 <= j < i + 1 ensures cards[j].id != id {
            if j > 0 { assert cards[j] == cards[1..][j - 1]; }
          }
        }
        r
      else r
  }
}
