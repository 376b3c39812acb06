/**
 * The cart modal: the total it displays, the edits its buttons make, the check
 * that the customer fields are filled in, the request body it posts to
 * `/finalizar-pedido`, and what happens to the cart after the answer.
 *
 * Line numbers in the comments refer to `src/components/CartModal.tsx`.
 */
module CartModal {
  import opened Wrappers
  import opened Cart
  import Store

  /** Line 16: `cart.reduce((acc, item) => acc + item.valor * item.qtd, 0)`. */
  function Total(cart: seq<CartItem>): int {
    if cart == [] then 0 else Total(cart[..|cart| - 1]) + cart[|cart| - 1].valor * cart[|cart| - 1].qtd
  }

  lemma {:induction false} TotalAppend(a: seq<CartItem>, b: seq<CartItem>)
    ensures Total(a + b) == Total(a) + Total(b)
    decreases |b|
  {
    if b == [] {
      assert a + b == a;
    } else {
      assert (a + b)[..|a + b| - 1] == a + b[..|b| - 1];
      TotalAppend(a, b[..|b| - 1]);
    }
  }

  /** Two carts that differ only at position `k` differ in total by the difference of the two subtotals there. */
  lemma {:induction false} TotalDiffersAt(a: seq<CartItem>, b: seq<CartItem>, k: int)
    requires |a| == |b| && 0 <= k < |a|
    requires forall i :: 0 <= i < |a| && i != k ==> a[i].valor == b[i].valor && a[i].qtd == b[i].qtd
    ensures Total(b) == Total(a) - a[k].valor * a[k].qtd + b[k].valor * b[k].qtd
    decreases |a|
  {
    var n := |a| - 1;
    if k == n {
      TotalPointwise(a[..n], b[..n]);
    } else {
      TotalDiffersAt(a[..n], b[..n], k);
    }
  }

  /** An entry whose quantity moved by `d` changes a total `t` by `d` unit prices. */
  lemma Rescale(t: int, x: CartItem, y: CartItem, d: int)
    requires y.valor == x.valor && y.qtd == x.qtd + d
    ensures t - x.valor * x.qtd + y.valor * y.qtd == t + x.valor * d
  {
  }

  /**
   * Adding from the menu (the cart context's `addToCart`, lines 39-52 there) a product
   * already in the cart raises the total by the quantity times the price on its entry.
   */
  lemma TotalAddExisting(cart: seq<CartItem>, produto: Produto, quantidade: Option<int>, k: int)
    requires UniqueIds(cart) && 0 <= k < |cart| && cart[k].idProduto == produto.idProduto
    ensures Total(AddToCart(cart, produto, quantidade)) == Total(cart) + cart[k].valor * quantidade.GetOr(1)
  {
    var r := AddToCart(cart, produto, quantidade);
    assert Find(cart, produto.idProduto).Some?;
    assert forall i :: 0 <= i < |cart| && i != k ==> r[i] == cart[i];
    TotalDiffersAt(cart, r, k);
    Rescale(Total(cart), cart[k], r[k], quantidade.GetOr(1));
  }

  /** Adding a product not yet in the cart raises the total by the quantity times the product's price. */
  lemma TotalAddNew(cart: seq<CartItem>, produto: Produto, quantidade: Option<int>)
    requires !Has(cart, produto.idProduto)
    ensures Total(AddToCart(cart, produto, quantidade)) == Total(cart) + produto.valor * quantidade.GetOr(1)
  {
    var n := NewItem(produto, quantidade.GetOr(1));
    AddNew(cart, produto, quantidade);
    TotalAppend(cart, [n]);
    assert [n][..0] == [];
  }

  /** Lines 18-23: the `+` button adds one unit price to the displayed total. */
  lemma TotalAumentar(cart: seq<CartItem>, id: int, k: int)
    requires UniqueIds(cart) && 0 <= k < |cart| && cart[k].idProduto == id
    ensures Total(AumentarQtd(cart, id)) == Total(cart) + cart[k].valor
  {
    var r := AumentarQtd(cart, id);
    assert forall i :: 0 <= i < |cart| && i != k ==> r[i] == cart[i];
    assert r[k].valor == cart[k].valor && r[k].qtd == cart[k].qtd + 1;
    TotalDiffersAt(cart, r, k);
    Rescale(Total(cart), cart[k], r[k], 1);
  }

  /** Lines 25-30: the `-` button takes one unit price off, except at quantity 1 where nothing changes. */
  lemma TotalDiminuir(cart: seq<CartItem>, id: int, k: int)
    requires UniqueIds(cart) && PositiveQtd(cart) && 0 <= k < |cart| && cart[k].idProduto == id
    ensures Total(DiminuirQtd(cart, id)) == if cart[k].qtd > 1 then Total(cart) - cart[k].valor else Total(cart)
  {
    var r := DiminuirQtd(cart, id);
    assert forall i :: 0 <= i < |cart| && i != k ==> r[i] == cart[i];
    if cart[k].qtd > 1 {
      assert r[k].valor == cart[k].valor && r[k].qtd == cart[k].qtd - 1;
      TotalDiffersAt(cart, r, k);
      Rescale(Total(cart), cart[k], r[k], -1);
    } else {
      assert r[k] == cart[k];
      TotalPointwise(cart, r);
    }
  }

  /** Lines 32-33: removing an entry takes its whole subtotal off the displayed total. */
  lemma TotalRemover(cart: seq<CartItem>, id: int, k: int)
    requires UniqueIds(cart) && 0 <= k < |cart| && cart[k].idProduto == id
    ensures Total(RemoverItem(cart, id)) == Total(cart) - cart[k].valor * cart[k].qtd
  {
    var a, x, b := cart[..k], cart[k], cart[k + 1..];
    RemoverAt(cart, id, k);
    assert cart == a + [x] + b;
    TotalAppend(a + [x], b);
    TotalAppend(a, [x]);
    TotalAppend(a, b);
    assert [x][..0] == [];
  }

  /** Two carts whose entries have the same subtotals, position by position, have the same total. */
  lemma {:induction false} TotalPointwise(a: seq<CartItem>, b: seq<CartItem>)
    requires |a| == |b|
    requires forall i :: 0 <= i < |a| ==> a[i].valor == b[i].valor && a[i].qtd == b[i].qtd
    ensures Total(a) == Total(b)
    decreases |a|
  {
    if a != [] {
      TotalPointwise(a[..|a| - 1], b[..|b| - 1]);
    }
  }

  /** Lines 35-40: editing a note leaves the displayed total unchanged. */
  lemma TotalObservacao(cart: seq<CartItem>, id: int, observacao: string)
    ensures Total(AtualizarObservacao(cart, id, observacao)) == Total(cart)
  {
    var r := AtualizarObservacao(cart, id, observacao);
    assert forall i :: 0 <= i < |cart| ==> r[i].valor == cart[i].valor && r[i].qtd == cart[i].qtd;
    TotalPointwise(r, cart);
  }

  /** The customer fields and the payment choice of the modal's form. */
  datatype Form = Form(nome: string, telefone: string, rua: string, bairro: string, pagamento: string)

  /** Line 43: `!nome || !telefone || !rua || !bairro` rejects the form. */
  predicate Complete(f: Form) {
    f.nome != "" && f.telefone != "" && f.rua != "" && f.bairro != ""
  }

  /** Lines 48-52: one request item per cart entry, with the note defaulting to "". */
  function Itens(cart: seq<CartItem>): (r: seq<Store.ItemRequest>)
    ensures |r| == |cart|
    ensures forall i :: 0 <= i < |cart| ==>
      r[i] == Store.ItemRequest(cart[i].idProduto, cart[i].qtd, Some(cart[i].observacao.GetOr("")))
  {
    if cart == [] then []
    else [Store.ItemRequest(cart[0].idProduto, cart[0].qtd, Some(cart[0].observacao.GetOr("")))] + Itens(cart[1..])
  }

  /** Lines 54-65: the body posted to the backend. */
  function Request(f: Form, cart: seq<CartItem>): Store.OrderRequest {
    Store.OrderRequest(Store.Identity(f.nome, f.telefone, f.rua, f.bairro), f.pagamento, Itens(cart))
  }

  /** How the post ended: the parsed answer's `success` field, or a failed fetch. */
  datatype Reply = Answered(success: bool) | ConnectionFailed

  /** The cart state after the attempt, and the request that was sent, if any. */
  datatype Outcome = Outcome(state: CartState, sent: Option<Store.OrderRequest>)

  /**
   * Lines 42-80: an incomplete form sends nothing; otherwise the request is sent and
   * only a successful answer clears the cart and toggles the modal.
   */
  function FinalizarPedido(s: CartState, f: Form, reply: Reply): (r: Outcome)
    ensures !Complete(f) ==> r == Outcome(s, None)
    ensures Complete(f) ==> r.sent == Some(Request(f, s.cart))
    ensures r.state == s || (r.state.cart == [] && r.state.isOpen == !s.isOpen)
    ensures r.state != s ==> Complete(f) && reply == Answered(true)
  {
    if !Complete(f) then Outcome(s, None)
    else
      var sent := Some(Request(f, s.cart));
      match reply
      case Answered(true) => Outcome(ToggleCart(ClearCart(s)), sent)
      case _ => Outcome(s, sent)
  }

  /** A successful post always leaves an empty, toggled cart. */
  lemma SuccessClears(s: CartState, f: Form)
    requires Complete(f)
    ensures FinalizarPedido(s, f, Answered(true)).state == CartState([], !s.isOpen)
  {
  }

  /**
   * When every cart entry shows the store's current price, the server's total for
   * the posted items equals the total the modal displays.
   */
  lemma {:induction false} ServerTotalMatchesDisplayed(products: map<int, Store.Product>, cart: seq<CartItem>)
    requires forall i :: 0 <= i < |cart| ==>
      cart[i].idProduto in products && products[cart[i].idProduto].valor == cart[i].valor
    ensures Store.CartTotal(products, Itens(cart)) == Total(cart)
  {
    if cart != [] {
      var init := cart[..|cart| - 1];
      var last := cart[|cart| - 1];
      ServerTotalMatchesDisplayed(products, init);
      assert Itens(cart)[..|cart| - 1] == Itens(init);
      assert last.qtd * last.valor == last.valor * last.qtd;
    }
  }

  /** Each posted note comes back from the order listing as the cart's note, "" when there was none. */
  lemma PostedNotesRoundTrip(cart: seq<CartItem>, i: int)
    requires 0 <= i < |cart|
    ensures Store.ReadNote(Store.StoredNote(Itens(cart)[i].observacao)) == cart[i].observacao.GetOr("")
  {
  }
}
