/** The inline keyboards the bot sends: what callback data each button carries
    (`show_menu`, `show_cart`, `show_change_cart`), built in loops as the
    source builds them, and specified by functions over the backend's answers. */
module Keyboards {
  import opened PyText
  import opened Domain

  /** Callback data of a page button: the offset, as `str(offset)`. */
  function PageData(offset: int): string {
    Str(offset)
  }

  /** `f"{price:.2f}"` for an integral price. */
  function PriceText(amount: int): string {
    Str(amount) + ".00"
  }

  /** Callback data of a product button: `"<product id>:<price>"`. */
  function ProductData(id: string, amount: int): string {
    id + ":" + PriceText(amount)
  }

  /** Callback data of the `-` and `+` buttons: `"<new quantity>:<cart item id>"`. */
  function QuantityData(quantity: int, itemId: string): string {
    Str(quantity) + ":" + itemId
  }

  /** Callback data of a delivery button: `"delivery:<fee>"`. */
  function DeliveryChoice(fee: int): string {
    "delivery:" + Str(fee)
  }

  /** True when the keyboard offers the button somewhere. */
  predicate Offers(kb: Keyboard, b: Button) {
    exists row :: row in kb && b in row
  }

  // ---------------------------------------------------------------- show_menu

  /** A listed product gets a button only when it has a non-zero price and is live. */
  predicate Sellable(l: Listing) {
    l.amount != 0 && l.status == "live"
  }

  function ProductRow(l: Listing): seq<Button> {
    [Button(ProductData(l.id, l.amount))]
  }

  /** One row per sellable product, in listing order. */
  function ProductRows(ls: seq<Listing>): (rows: Keyboard)
    ensures forall row :: row in rows ==> exists l :: l in ls && Sellable(l) && row == ProductRow(l)
    ensures forall l :: l in ls && Sellable(l) ==> ProductRow(l) in rows
    decreases |ls|
  {
    if |ls| == 0 then []
    else
      var last := ls[|ls| - 1];
      var front := ProductRows(ls[..|ls| - 1]);
      assert forall l :: l in ls ==> l in ls[..|ls| - 1] || l == last;
      if Sellable(last) then front + [ProductRow(last)] else front
  }

  /** A page-navigation button: back or forward to a listing offset. */
  datatype Nav = Back(offset: int) | Forward(offset: int)

  /** The navigation row of `show_menu`: with more than one page, the first page
      goes forward only, a middle page both ways, the last page back only; a
      single page (or a current page outside 1..total) gets nothing. */
  function NavButtons(p: PageMeta): (r: seq<Nav>)
    ensures forall x :: Forward(x) in r <==> p.total > 1 && 1 <= p.current < p.total && x == p.offset + p.limit
    ensures forall x :: Back(x) in r <==> p.total > 1 && 1 < p.current <= p.total && x == p.offset - p.limit
    ensures |r| <= 2
  {
    if p.total > 1 then
      if p.current == 1 then [Forward(p.offset + p.limit)]
      else if 1 < p.current < p.total then [Back(p.offset - p.limit), Forward(p.offset + p.limit)]
      else if p.current == p.total then [Back(p.offset - p.limit)]
      else []
    else []
  }

  function NavButton(n: Nav): Button {
    Button(PageData(n.offset))
  }

  function NavRows(p: PageMeta): Keyboard {
    var navs := NavButtons(p);
    if |navs| == 0 then []
    else if |navs| == 1 then [[NavButton(navs[0])]]
    else [[NavButton(navs[0]), NavButton(navs[1])]]
  }

  /** The whole menu keyboard: products, then navigation, then the cart button. */
  function MenuKeyboard(pg: ProductPage): Keyboard {
    ProductRows(pg.data) + NavRows(pg.page) + [[Button("cart")]]
  }

  /** `show_menu`'s keyboard loop. */
  method BuildMenuKeyboard(pg: ProductPage) returns (kb: Keyboard)
    ensures kb == MenuKeyboard(pg)
  {
    kb := [];
    var i := 0;
    while i < |pg.data|
      invariant 0 <= i <= |pg.data|
      invariant kb == ProductRows(pg.data[..i])
    {
      var product := pg.data[i];
      if product.amount != 0 && product.status == "live" {
        kb := kb + [[Button(ProductData(product.id, product.amount))]];
      }
      assert pg.data[..i + 1][..i] == pg.data[..i];
      i := i + 1;
    }
    assert pg.data[..i] == pg.data;
    var p := pg.page;
    if p.total > 1 {
      if p.current == 1 {
        kb := kb + [[Button(PageData(p.offset + p.limit))]];
      } else if 1 < p.current < p.total {
        kb := kb + [[Button(PageData(p.offset - p.limit)), Button(PageData(p.offset + p.limit))]];
      } else if p.current == p.total {
        kb := kb + [[Button(PageData(p.offset - p.limit))]];
      }
    }
    kb := kb + [[Button("cart")]];
  }

  // ---------------------------------------------------------------- show_cart

  /** `show_cart`'s keyboard: back to the shop always; edit, clear and checkout
      only when the cart total is positive. */
  function CartKeyboard(total: int): (kb: Keyboard)
    ensures Offers(kb, Button("menu"))
    ensures Offers(kb, Button("change")) <==> total > 0
    ensures Offers(kb, Button("clear")) <==> total > 0
    ensures Offers(kb, Button("checkout")) <==> total > 0
  {
    var kb := [[Button("menu")]] + (if total > 0 then [[Button("change")], [Button("clear")], [Button("checkout")]] else []);
    assert [Button("menu")] in kb;
    assert total > 0 ==> [Button("change")] in kb && [Button("clear")] in kb && [Button("checkout")] in kb;
    kb
  }

  // --------------------------------------------------------- show_change_cart

  /** The `-` / filler / `+` row of one cart line. */
  function QuantityRow(item: CartItem): seq<Button> {
    [Button(QuantityData(item.quantity - 1, item.id)), Button(" "), Button(QuantityData(item.quantity + 1, item.id))]
  }

  /** Two rows per cart line: an inert label button, then the line's own row. */
  function LabelledRows(items: seq<CartItem>, row: CartItem -> seq<Button>): (rows: Keyboard)
    ensures |rows| == 2 * |items|
    decreases |items|
  {
    if |items| == 0 then []
    else LabelledRows(items[..|items| - 1], row) + [[Button("none")], row(items[|items| - 1])]
  }

  /** Line k owns rows 2k (its label) and 2k+1 (its own row). */
  lemma {:induction false} LabelledRowsAt(items: seq<CartItem>, row: CartItem -> seq<Button>, k: nat)
    requires k < |items|
    ensures LabelledRows(items, row)[2 * k] == [Button("none")]
    ensures LabelledRows(items, row)[2 * k + 1] == row(items[k])
    decreases |items|
  {
    var n := |items| - 1;
    var front := LabelledRows(items[..n], row);
    assert LabelledRows(items, row) == front + [[Button("none")], row(items[n])];
    if k < n {
      LabelledRowsAt(items[..n], row, k);
      assert items[..n][k] == items[k];
    }
  }

  /** The edit keyboard's line rows: each line's label, then its quantity row. */
  function ChangeCartRows(items: seq<CartItem>): (rows: Keyboard)
    ensures |rows| == 2 * |items|
  {
    LabelledRows(items, QuantityRow)
  }

  /** Line k of the cart owns rows 2k (its label) and 2k+1 (its quantity buttons). */
  lemma ChangeCartRowsAt(items: seq<CartItem>, k: nat)
    requires k < |items|
    ensures ChangeCartRows(items)[2 * k] == [Button("none")]
    ensures ChangeCartRows(items)[2 * k + 1] == QuantityRow(items[k])
  {
    LabelledRowsAt(items, QuantityRow, k);
  }

  function ChangeCartKeyboard(items: seq<CartItem>): Keyboard {
    ChangeCartRows(items) + [[Button("cart")]]
  }

  /** In the full edit keyboard, row 2k+1 is still line k's quantity row. */
  lemma ChangeCartKeyboardRow(items: seq<CartItem>, k: nat)
    requires k < |items|
    ensures ChangeCartKeyboard(items)[2 * k + 1] == QuantityRow(items[k])
  {
    ChangeCartRowsAt(items, k);
    assert ChangeCartKeyboard(items)[2 * k + 1] == ChangeCartRows(items)[2 * k + 1];
  }

  /** `show_change_cart`'s keyboard loop. */
  method BuildChangeCartKeyboard(cart: Cart) returns (kb: Keyboard)
    ensures kb == ChangeCartKeyboard(cart.items)
  {
    kb := [];
    for i := 0 to |cart.items|
      invariant kb == ChangeCartRows(cart.items[..i])
    {
      var item := cart.items[i];
      kb := kb + [[Button("none")]];
      kb := kb + [[Button(QuantityData(item.quantity - 1, item.id)), Button(" "), Button(QuantityData(item.quantity + 1, item.id))]];
      assert cart.items[..i + 1][..i] == cart.items[..i];
    }
    assert cart.items[..|cart.items|] == cart.items;
    kb := kb + [[Button("cart")]];
  }
}
