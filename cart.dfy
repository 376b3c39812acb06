/**
 * The shopping cart held by the client's cart provider: each operation is a
 * `prev => next` update of the list of cart entries. Prices are in cents.
 *
 * Line numbers in the comments refer to `src/context/CartContext.tsx`.
 */
module Cart {
  import opened Wrappers

  /** A product of the menu. */
  datatype Produto = Produto(idProduto: int, nome: string, descricao: string, valor: int, categoria: string)

  /** A cart entry: the product's fields, the quantity and an optional note. */
  datatype CartItem = CartItem(
    idProduto: int, nome: string, descricao: string, valor: int, categoria: string,
    qtd: int, observacao: Option<string>)

  /** The provider's state: the cart and whether the cart modal is open. */
  datatype CartState = CartState(cart: seq<CartItem>, isOpen: bool)

  /** No two entries are for the same product. */
  predicate UniqueIds(cart: seq<CartItem>) {
    forall i, j :: 0 <= i < j < |cart| ==> cart[i].idProduto != cart[j].idProduto
  }

  /** Every quantity is at least 1. */
  predicate PositiveQtd(cart: seq<CartItem>) {
    forall i :: 0 <= i < |cart| ==> cart[i].qtd >= 1
  }

  predicate Has(cart: seq<CartItem>, id: int) {
    exists i :: 0 <= i < |cart| && cart[i].idProduto == id
  }

  /** `prev.find(p => p.id_produto === id)`. */
  function Find(cart: seq<CartItem>, id: int): (r: Option<CartItem>)
    ensures r.Some? <==> Has(cart, id)
    ensures r.Some? ==> r.value in cart && r.value.idProduto == id
  {
    if cart == [] then None
    else if cart[0].idProduto == id then Some(cart[0])
    else
      assert forall i :: 1 <= i < |cart| ==> cart[i] == cart[1..][i - 1];
      Find(cart[1..], id)
  }

  /** `prev.map(p => p.id_produto === id ? f(p) : p)`. */
  function MapMatching(cart: seq<CartItem>, id: int, f: CartItem -> CartItem): (r: seq<CartItem>)
    ensures |r| == |cart|
    ensures forall i :: 0 <= i < |cart| ==> r[i] == if cart[i].idProduto == id then f(cart[i]) else cart[i]
  {
    if cart == [] then []
    else [if cart[0].idProduto == id then f(cart[0]) else cart[0]] + MapMatching(cart[1..], id, f)
  }

  /** `{ ...produto, qtd: quantidade }`: a new entry has no note. */
  function NewItem(p: Produto, quantidade: int): CartItem {
    CartItem(p.idProduto, p.nome, p.descricao, p.valor, p.categoria, quantidade, None)
  }

  /** Lines 39-52: merge into the existing entry, or append a new one; `quantidade` defaults to 1. */
  function AddToCart(cart: seq<CartItem>, produto: Produto, quantidade: Option<int>): seq<CartItem> {
    var q := quantidade.GetOr(1);
    if Find(cart, produto.idProduto).Some? then
      MapMatching(cart, produto.idProduto, (p: CartItem) => p.(qtd := p.qtd + q))
    else
      cart + [NewItem(produto, q)]
  }

  /** Lines 54-60. */
  function AumentarQtd(cart: seq<CartItem>, id: int): seq<CartItem> {
    MapMatching(cart, id, (p: CartItem) => p.(qtd := p.qtd + 1))
  }

  function Max(a: int, b: int): int {
    if a >= b then a else b
  }

  /** Lines 62-70: `Math.max(1, p.qtd - 1)`. */
  function DiminuirQtd(cart: seq<CartItem>, id: int): seq<CartItem> {
    MapMatching(cart, id, (p: CartItem) => p.(qtd := Max(1, p.qtd - 1)))
  }

  /** Lines 72-74: `prev.filter(p => p.id_produto !== id)`. */
  function RemoverItem(cart: seq<CartItem>, id: int): seq<CartItem> {
    if cart == [] then []
    else (if cart[0].idProduto != id then [cart[0]] else []) + RemoverItem(cart[1..], id)
  }

  /** Lines 81-87. */
  function AtualizarObservacao(cart: seq<CartItem>, id: int, observacao: string): seq<CartItem> {
    MapMatching(cart, id, (p: CartItem) => p.(observacao := Some(observacao)))
  }

  /** Line 76. */
  function ClearCart(s: CartState): CartState {
    s.(cart := [])
  }

  /** Line 78. */
  function ToggleCart(s: CartState): CartState {
    s.(isOpen := !s.isOpen)
  }

  // ---------------------------------------------------------------------------
  // What each operation does
  // ---------------------------------------------------------------------------

  /** Adding a product already in the cart raises that entry's quantity and changes nothing else. */
  lemma AddExisting(cart: seq<CartItem>, produto: Produto, quantidade: Option<int>, k: int)
    requires UniqueIds(cart) && 0 <= k < |cart| && cart[k].idProduto == produto.idProduto
    ensures AddToCart(cart, produto, quantidade) == cart[k := cart[k].(qtd := cart[k].qtd + quantidade.GetOr(1))]
  {
  }

  /** Adding a product not yet in the cart appends one entry at the end. */
  lemma AddNew(cart: seq<CartItem>, produto: Produto, quantidade: Option<int>)
    requires !Has(cart, produto.idProduto)
    ensures AddToCart(cart, produto, quantidade) == cart + [NewItem(produto, quantidade.GetOr(1))]
    ensures AddToCart(cart, produto, None)[|cart|].qtd == 1
  {
  }

  lemma AumentarAt(cart: seq<CartItem>, id: int, k: int)
    requires UniqueIds(cart) && 0 <= k < |cart| && cart[k].idProduto == id
    ensures AumentarQtd(cart, id) == cart[k := cart[k].(qtd := cart[k].qtd + 1)]
  {
  }

  lemma DiminuirAt(cart: seq<CartItem>, id: int, k: int)
    requires UniqueIds(cart) && 0 <= k < |cart| && cart[k].idProduto == id
    ensures DiminuirQtd(cart, id) == cart[k := cart[k].(qtd := Max(1, cart[k].qtd - 1))]
    ensures cart[k].qtd == 1 ==> DiminuirQtd(cart, id) == cart
  {
    if cart[k].qtd == 1 {
      assert cart[k].(qtd := 1) == cart[k];
    }
  }

  /** Increment, decrement and note update of an id that is not in the cart change nothing. */
  lemma UnknownIdUnchanged(cart: seq<CartItem>, id: int, observacao: string)
    requires !Has(cart, id)
    ensures AumentarQtd(cart, id) == cart && DiminuirQtd(cart, id) == cart
    ensures AtualizarObservacao(cart, id, observacao) == cart && RemoverItem(cart, id) == cart
  {
    UnknownIdNotRemoved(cart, id);
  }

  lemma {:induction false} UnknownIdNotRemoved(cart: seq<CartItem>, id: int)
    requires !Has(cart, id)
    ensures RemoverItem(cart, id) == cart
  {
    if cart != [] {
      assert !Has(cart[1..], id) by {
        forall i | 0 <= i < |cart[1..]| ensures cart[1..][i].idProduto != id {
          assert cart[1..][i] == cart[i + 1];
        }
      }
      UnknownIdNotRemoved(cart[1..], id);
      assert [cart[0]] + cart[1..] == cart;
    }
  }

  /** Removal keeps exactly the entries with another id. */
  lemma {:induction false} RemoverMembers(cart: seq<CartItem>, id: int)
    ensures forall x :: x in RemoverItem(cart, id) <==> x in cart && x.idProduto != id
    ensures |RemoverItem(cart, id)| <= |cart|
  {
    if cart != [] {
      RemoverMembers(cart[1..], id);
      assert cart == [cart[0]] + cart[1..];
    }
  }

  /** Removal distributes over concatenation, so it keeps relative order. */
  lemma {:induction false} RemoverAppend(a: seq<CartItem>, b: seq<CartItem>, id: int)
    ensures RemoverItem(a + b, id) == RemoverItem(a, id) + RemoverItem(b, id)
  {
    if a != [] {
      assert (a + b)[1..] == a[1..] + b;
      RemoverAppend(a[1..], b, id);
    } else {
      assert a + b == b;
    }
  }

  lemma NotHasSlice(cart: seq<CartItem>, id: int, lo: int, hi: int)
    requires 0 <= lo <= hi <= |cart|
    requires forall i :: lo <= i < hi ==> cart[i].idProduto != id
    ensures !Has(cart[lo..hi], id)
  {
    forall i | 0 <= i < hi - lo ensures cart[lo..hi][i].idProduto != id {
      assert cart[lo..hi][i] == cart[lo + i];
    }
  }

  /** Removing an entry keeps all the others, in their order. */
  lemma RemoverAt(cart: seq<CartItem>, id: int, k: int)
    requires UniqueIds(cart) && 0 <= k < |cart| && cart[k].idProduto == id
    ensures RemoverItem(cart, id) == cart[..k] + cart[k + 1..]
  {
    var a, x, b := cart[..k], cart[k], cart[k + 1..];
    assert RemoverItem(a, id) == a by {
      assert forall i :: 0 <= i < k ==> cart[i].idProduto != id;
      NotHasSlice(cart, id, 0, k);
      UnknownIdNotRemoved(a, id);
    }
    assert RemoverItem(b, id) == b by {
      assert forall i :: k + 1 <= i < |cart| ==> cart[i].idProduto != id;
      NotHasSlice(cart, id, k + 1, |cart|);
      UnknownIdNotRemoved(b, id);
    }
    assert RemoverItem([x], id) == [] by {
      assert [x][1..] == [];
    }
    assert RemoverItem(cart, id) == RemoverItem(a, id) + RemoverItem([x], id) + RemoverItem(b, id) by {
      assert cart == (a + [x]) + b;
      RemoverAppend(a + [x], b, id);
      RemoverAppend(a, [x], id);
    }
  }

  /** The note update touches only the note of the matching entry. */
  lemma AtualizarOnlyNote(cart: seq<CartItem>, id: int, observacao: string)
    ensures var r := AtualizarObservacao(cart, id, observacao);
      |r| == |cart| &&
      forall i :: 0 <= i < |cart| ==>
        r[i].(observacao := cart[i].observacao) == cart[i] &&
        r[i].observacao == if cart[i].idProduto == id then Some(observacao) else cart[i].observacao
  {
  }

  /** Clearing empties the cart; toggling twice restores `isOpen`. */
  lemma ClearAndToggle(s: CartState)
    ensures ClearCart(s).cart == [] && ClearCart(s).isOpen == s.isOpen
    ensures ToggleCart(ToggleCart(s)) == s && ToggleCart(s).cart == s.cart
  {
  }

  // ---------------------------------------------------------------------------
  // The invariant every operation keeps
  // ---------------------------------------------------------------------------

  /** An update through the cart provider. */
  datatype CartOp =
    | Add(produto: Produto, quantidade: Option<int>)
    | Aumentar(id: int)
    | Diminuir(id: int)
    | Remover(id: int)
    | Observacao(id: int, observacao: string)
    | Clear

  function Apply(cart: seq<CartItem>, op: CartOp): seq<CartItem> {
    match op
    case Add(p, q) => AddToCart(cart, p, q)
    case Aumentar(id) => AumentarQtd(cart, id)
    case Diminuir(id) => DiminuirQtd(cart, id)
    case Remover(id) => RemoverItem(cart, id)
    case Observacao(id, o) => AtualizarObservacao(cart, id, o)
    case Clear => []
  }

  /** Updates that map entries keep every entry's product id. */
  lemma MapMatchingKeepsIds(cart: seq<CartItem>, id: int, f: CartItem -> CartItem)
    requires forall x :: f(x).idProduto == x.idProduto
    ensures UniqueIds(cart) ==> UniqueIds(MapMatching(cart, id, f))
  {
    var r := MapMatching(cart, id, f);
    assert forall i :: 0 <= i < |cart| ==> r[i].idProduto == cart[i].idProduto;
  }

  lemma {:induction false} RemoverKeepsUnique(cart: seq<CartItem>, id: int)
    requires UniqueIds(cart)
    ensures UniqueIds(RemoverItem(cart, id))
  {
    if cart != [] {
      var tail := cart[1..];
      assert UniqueIds(tail) by {
        forall i, j | 0 <= i < j < |tail| ensures tail[i].idProduto != tail[j].idProduto {
          assert tail[i] == cart[i + 1] && tail[j] == cart[j + 1];
        }
      }
      RemoverKeepsUnique(tail, id);
      var rest := RemoverItem(tail, id);
      RemoverMembers(tail, id);
      if cart[0].idProduto != id {
        forall x | x in rest ensures x.idProduto != cart[0].idProduto {
          assert x in tail;
          var j :| 0 <= j < |tail| && tail[j] == x;
          assert cart[j + 1] == x;
        }
        var r := [cart[0]] + rest;
        forall i, j | 0 <= i < j < |r| ensures r[i].idProduto != r[j].idProduto {
          assert r[j] == rest[j - 1] && r[j] in rest;
          if i > 0 {
            assert r[i] == rest[i - 1];
          }
        }
      } else {
        assert RemoverItem(cart, id) == rest;
      }
    }
  }

  /** Every cart operation keeps product ids unique. */
  lemma ApplyKeepsUnique(cart: seq<CartItem>, op: CartOp)
    requires UniqueIds(cart)
    ensures UniqueIds(Apply(cart, op))
  {
    match op
    case Add(p, q) =>
      var f := (x: CartItem) => x.(qtd := x.qtd + q.GetOr(1));
      MapMatchingKeepsIds(cart, p.idProduto, f);
      if !Has(cart, p.idProduto) {
        var r := cart + [NewItem(p, q.GetOr(1))];
        assert forall i :: 0 <= i < |cart| ==> r[i] == cart[i];
      }
    case Aumentar(id) => MapMatchingKeepsIds(cart, id, (x: CartItem) => x.(qtd := x.qtd + 1));
    case Diminuir(id) => MapMatchingKeepsIds(cart, id, (x: CartItem) => x.(qtd := Max(1, x.qtd - 1)));
    case Remover(id) => RemoverKeepsUnique(cart, id);
    case Observacao(id, o) => MapMatchingKeepsIds(cart, id, (x: CartItem) => x.(observacao := Some(o)));
    case Clear =>
  }

  /** Every operation keeps quantities at least 1, provided an added quantity is at least 1. */
  lemma ApplyKeepsPositive(cart: seq<CartItem>, op: CartOp)
    requires PositiveQtd(cart)
    requires op.Add? ==> op.quantidade.GetOr(1) >= 1
    ensures PositiveQtd(Apply(cart, op))
  {
    match op
    case Add(p, q) =>
    case Aumentar(id) =>
    case Diminuir(id) =>
    case Remover(id) =>
      var r := RemoverItem(cart, id);
      RemoverMembers(cart, id);
      forall i | 0 <= i < |r| ensures r[i].qtd >= 1 {
        assert r[i] in cart;
      }
    case Observacao(id, o) =>
    case Clear =>
  }

  /** Decrementing never leaves a quantity below 1, whatever the quantity was. */
  lemma DiminuirFloor(cart: seq<CartItem>, id: int)
    ensures forall i :: 0 <= i < |cart| && cart[i].idProduto == id ==> DiminuirQtd(cart, id)[i].qtd >= 1
  {
  }
}
