/** The members table: a row per member whose products fold out, each
    product with its type in words, a status badge, its details and, for
    an admin, a payment action. */
module MembersTable {
  import opened Wrappers
  import opened JsString

  /** `formatProductType`: '-' for a missing or empty type, else the type
      with a space before every capital, lower-cased. */
  function FormatProductType(t: Option<string>): (r: string)
    ensures t.None? || t.value == [] ==> r == "-"
    ensures t.Some? && t.value != [] ==> |r| == |t.value| + CountUpper(t.value)
    ensures forall i :: 0 <= i < |r| ==> !IsUpper(r[i])
  {
    if t.None? || t.value == [] then "-" else ToLower(SpaceBeforeCapitals(t.value))
  }

  /** A type already in lower case, such as 'other', is shown as it is. */
  lemma LowerCaseTypeUnchanged(t: string)
    requires t != [] && forall i :: 0 <= i < |t| ==> !IsUpper(t[i])
    ensures FormatProductType(Some(t)) == t
  {
    NoCapitalsUnchanged(t);
  }

  // ---------------------------------------------------------------- badge

  datatype Colours = Colours(background: string, text: string)

  /** The StatusBadge colours: one pair for 'active', one for 'pending', and
      the default pair for every other status, a missing one included. */
  function BadgeColours(status: Option<string>): (r: Colours)
    ensures status == Some("active") ==> r == Colours("#d4edda", "#155724")
    ensures status == Some("pending") ==> r == Colours("#fff3cd", "#856404")
    ensures status != Some("active") && status != Some("pending") ==> r == Colours("#e9ecef", "#495057")
  {
    if status == Some("active") then Colours("#d4edda", "#155724")
    else if status == Some("pending") then Colours("#fff3cd", "#856404")
    else Colours("#e9ecef", "#495057")
  }

  /** The three colour pairs are distinct. */
  lemma BadgeColoursDistinct(s: string, t: string)
    requires s != t
    requires s == "active" || s == "pending"
    ensures BadgeColours(Some(s)) != BadgeColours(Some(t))
  {
  }

  /** The badge text: the status, or 'N/A'. */
  function BadgeLabel(status: Option<string>): (r: string)
    ensures r != ""
    ensures status.Some? && status.value != "" ==> r == status.value
  {
    OrElse(status, "N/A")
  }

  // ---------------------------------------------------------------- products

  datatype Product = Product(productType: Option<string>, status: Option<string>, paymentStatus: Option<string>)

  /** `renderProductDetails`: the loan-cover view for 'loneCover', the
      generic dump under the type in words for any other. */
  datatype DetailView = LoneCoverView | GenericView(typeLine: string)

  function DetailsOf(p: Product): (r: DetailView)
    ensures r.LoneCoverView? <==> p.productType == Some("loneCover")
    ensures r.GenericView? ==> r.typeLine == FormatProductType(p.productType)
  {
    if p.productType == Some("loneCover") then LoneCoverView else GenericView(FormatProductType(p.productType))
  }

  /** `isPaymentCompleted` */
  predicate IsPaymentCompleted(p: Product) {
    p.paymentStatus == Some("completed") || p.paymentStatus == Some("paid")
  }

  datatype Action = AddPayment

  /** What ProductActions renders: nothing unless the user's role is
      'admin'; for an admin, the items of its menu. */
  function ActionsFor(role: Option<string>, p: Product): (r: Option<seq<Action>>)
    ensures r.Some? <==> role == Some("admin")
    ensures r.Some? ==> (AddPayment in r.value <==> !IsPaymentCompleted(p))
  {
    if role != Some("admin") then None
    else if IsPaymentCompleted(p) then Some([])
    else Some([AddPayment])
  }

  /** The product card. */
  datatype Card = Card(title: string, badge: string, colours: Colours, actions: Option<seq<Action>>, details: DetailView)

  function CardOf(role: Option<string>, p: Product): (r: Card)
    ensures r.title == FormatProductType(p.productType)
    ensures r.badge == BadgeLabel(p.status) && r.colours == BadgeColours(p.status)
    ensures r.actions == ActionsFor(role, p) && r.details == DetailsOf(p)
  {
    Card(FormatProductType(p.productType), BadgeLabel(p.status), BadgeColours(p.status), ActionsFor(role, p), DetailsOf(p))
  }

  /** ProductDetails: a loading notice, 'No products found' for a missing
      or empty list, else a card per product in order. */
  datatype Panel = Loading | NoProducts | Cards(cards: seq<Card>)

  function PanelOf(isLoading: bool, role: Option<string>, products: Option<seq<Product>>): (r: Panel)
    ensures isLoading ==> r == Loading
    ensures !isLoading && (products.None? || products.value == []) ==> r == NoProducts
    ensures r.Cards? ==> |r.cards| == |products.value| > 0
    ensures r.Cards? ==> forall i :: 0 <= i < |r.cards| ==> r.cards[i] == CardOf(role, products.value[i])
  {
    if isLoading then Loading
    else if products.None? || products.value == [] then NoProducts
    else Cards(CardsOf(role, products.value))
  }

  function CardsOf(role: Option<string>, ps: seq<Product>): (r: seq<Card>)
    ensures |r| == |ps|
    ensures forall i :: 0 <= i < |ps| ==> r[i] == CardOf(role, ps[i])
  {
    if ps == [] then [] else [CardOf(role, ps[0])] + CardsOf(role, ps[1..])
  }

  /** The menu and the payment dialog of one product's actions. */
  class ProductActions {
    var showMenu: bool
    var showPaymentModal: bool

    constructor ()
      ensures !showMenu && !showPaymentModal
    {
      showMenu := false;
      showPaymentModal := false;
    }

    /** The ellipsis button. */
    method ToggleMenu()
      modifies this`showMenu
      ensures showMenu == !old(showMenu)
    {
      showMenu := !showMenu;
    }

    /** 'Add Payment', which is on the open menu only while the payment is
        not completed: the dialog opens and the menu closes. */
    method ChooseAddPayment(role: Option<string>, p: Product)
      requires showMenu && ActionsFor(role, p) == Some([AddPayment])
      modifies this`showMenu, this`showPaymentModal
      ensures showPaymentModal && !showMenu
    {
      showPaymentModal := true;
      showMenu := false;
    }

    /** The dialog's `onHide` */
    method HidePaymentModal()
      modifies this`showPaymentModal
      ensures !showPaymentModal
    {
      showPaymentModal := false;
    }
  }

  // ---------------------------------------------------------------- rows

  /** `expandedRows[row.id]`: an absent entry reads as collapsed. */
  predicate IsExpanded(rows: map<string, bool>, id: string) {
    id in rows && rows[id]
  }

  /** `{ ...prev, [row.id]: !prev[row.id] }` */
  function Toggled(rows: map<string, bool>, id: string): (r: map<string, bool>)
    ensures IsExpanded(r, id) == !IsExpanded(rows, id)
    ensures r.Keys == rows.Keys + {id}
    ensures forall k :: k in rows && k != id ==> r[k] == rows[k]
  {
    rows[id := !IsExpanded(rows, id)]
  }

  /** Toggling a row twice folds it back: every row reads as before, and the
      map itself is the old one unless the row had no entry, when the row
      now holds `false`. */
  lemma ToggleTwice(rows: map<string, bool>, id: string)
    ensures forall k :: IsExpanded(Toggled(Toggled(rows, id), id), k) == IsExpanded(rows, k)
    ensures id in rows ==> Toggled(Toggled(rows, id), id) == rows
    ensures id !in rows ==> Toggled(Toggled(rows, id), id) == rows[id := false]
  {
    var r := Toggled(Toggled(rows, id), id);
    if id in rows {
      assert r.Keys == rows.Keys;
    } else {
      assert r.Keys == rows[id := false].Keys;
    }
  }

  class Table {
    var expandedRows: map<string, bool>

    constructor ()
      ensures expandedRows == map[]
    {
      expandedRows := map[];
    }

    /** The products button of a row. */
    method Toggle(id: string)
      modifies this
      ensures expandedRows == Toggled(old(expandedRows), id)
      ensures IsExpanded(expandedRows, id) == !IsExpanded(old(expandedRows), id)
      ensures forall k :: k != id ==> IsExpanded(expandedRows, k) == IsExpanded(old(expandedRows), k)
    {
      expandedRows := expandedRows[id := !IsExpanded(expandedRows, id)];
    }
  }
}
