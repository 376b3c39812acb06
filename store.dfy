/**
 * The order endpoints of the backend: customer find-or-create, pricing of a
 * submitted cart from the store's own prices, insertion of the order header and
 * its line rows, read-back of the orders with totals recomputed from the current
 * prices, and product deletion. The database is an object whose tables are
 * fields; every statement the endpoint sends is one step that changes them.
 * Money is in integer cents.
 *
 * Line numbers in the comments refer to `backend-dogueria/server.js`.
 */
module Store {
  import opened Wrappers

  /** The identifying fields of a customer (nome, telefone, rua, bairro). */
  datatype Identity = Identity(nome: string, telefone: string, rua: string, bairro: string)

  /** A row of table `cliente`. */
  datatype Customer = Customer(id: nat, identity: Identity)

  /** A row of table `produtos`, keyed by `id_produto`; `valor` is in cents. */
  datatype Product = Product(nome: string, descricao: string, valor: int, idCategoria: int)

  /** A row of table `pedido`; `data` is the day of `NOW()`. */
  datatype Order = Order(id: nat, data: int, formaPagamento: int, status: int, idCliente: nat, valorTotal: int)

  /** A row of table `pedido_has_produtos`; a missing note is SQL NULL. */
  datatype OrderLine = OrderLine(idPedido: nat, idProduto: int, quantidade: int, observacao: Option<string>)

  /** One element of `itens` in the body of `POST /finalizar-pedido`. */
  datatype ItemRequest = ItemRequest(idProduto: int, quantidade: int, observacao: Option<string>)

  datatype OrderRequest = OrderRequest(identity: Identity, formaPagamento: string, itens: seq<ItemRequest>)

  /** The JSON answer `{ success: true, id_pedido, valor_total, mensagem }`. */
  datatype FinalizeResponse = FinalizeResponse(idPedido: nat, valorTotal: int, mensagem: string)

  /** One element of `pedido.itens` in the answer of `GET /pedidos`. */
  datatype ListedItem = ListedItem(quantidade: int, observacao: string, nomeProduto: string, valor: int)

  /** One element of the answer of `GET /pedidos`. */
  datatype ListedOrder = ListedOrder(
    id: nat, data: int, formaPagamento: int, status: int,
    nomeCliente: string, telefone: string, rua: string, bairro: string,
    itens: seq<ListedItem>, valorTotal: int)

  datatype DeleteOutcome = Deleted | NotFound

  /** The only status the endpoint writes: the order has been placed. */
  const StatusPlaced := 1

  /** `pagamentoMap[forma_pagamento] || 1`. */
  function PaymentCode(forma: string): (code: int)
    ensures 1 <= code <= 3
    ensures code == 2 <==> forma == "Pix"
    ensures code == 3 <==> forma == "Cartão"
  {
    if forma == "Dinheiro" then 1
    else if forma == "Pix" then 2
    else if forma == "Cartão" then 3
    else 1
  }

  // ---------------------------------------------------------------------------
  // Customer resolution
  // ---------------------------------------------------------------------------

  /** The id of the first customer whose four identifying fields all equal `k`. */
  function LookupCustomer(cs: seq<Customer>, k: Identity): (r: Option<nat>)
    ensures r.None? <==> forall i :: 0 <= i < |cs| ==> cs[i].identity != k
    ensures r.Some? ==> exists i :: 0 <= i < |cs| && cs[i] == Customer(r.value, k)
  {
    if cs == [] then None
    else if cs[0].identity == k then Some(cs[0].id)
    else
      var r := LookupCustomer(cs[1..], k);
      assert forall i :: 1 <= i < |cs| ==> cs[i] == cs[1..][i - 1];
      r
  }

  /** The customer tables and the id handed back by a find-or-create. */
  datatype Resolution = Resolution(customers: seq<Customer>, nextId: nat, id: nat)

  /** Find-or-create: reuse the matching customer, otherwise insert one with the next id. */
  function Resolve(cs: seq<Customer>, next: nat, k: Identity): (r: Resolution)
    ensures exists i :: 0 <= i < |r.customers| && r.customers[i] == Customer(r.id, k)
    ensures LookupCustomer(cs, k).Some? ==> r == Resolution(cs, next, LookupCustomer(cs, k).value)
    ensures LookupCustomer(cs, k).None? ==> r == Resolution(cs + [Customer(next, k)], next + 1, next)
  {
    match LookupCustomer(cs, k)
    case Some(id) => Resolution(cs, next, id)
    case None =>
      var cs' := cs + [Customer(next, k)];
      assert cs'[|cs|] == Customer(next, k);
      Resolution(cs', next + 1, next)
  }

  lemma {:induction false} LookupAppend(cs: seq<Customer>, c: Customer, k: Identity)
    ensures LookupCustomer(cs + [c], k) ==
      if LookupCustomer(cs, k).Some? then LookupCustomer(cs, k)
      else if c.identity == k then Some(c.id) else None
  {
    if cs != [] {
      assert (cs + [c])[1..] == cs[1..] + [c];
      LookupAppend(cs[1..], c, k);
    }
  }

  /**
   * Resolving the same identity twice in a row gives the same id and inserts
   * nothing the second time.
   */
  lemma ResolveIdempotent(cs: seq<Customer>, next: nat, k: Identity)
    ensures var r := Resolve(cs, next, k); Resolve(r.customers, r.nextId, k) == r
  {
    if LookupCustomer(cs, k).None? {
      LookupAppend(cs, Customer(next, k), k);
    }
  }

  /** At most one customer is inserted, and only when no customer matches. */
  lemma ResolveInsertsAtMostOne(cs: seq<Customer>, next: nat, k: Identity)
    ensures var r := Resolve(cs, next, k);
      (r.customers == cs <==> exists i :: 0 <= i < |cs| && cs[i].identity == k)
      && |r.customers| <= |cs| + 1 && r.customers[..|cs|] == cs
  {
  }

  /** The customer with id `id`, as `JOIN cliente c ON p.id_cliente = c.id_cliente` finds it. */
  function CustomerById(cs: seq<Customer>, id: nat): (r: Option<Customer>)
    ensures r.Some? <==> exists i :: 0 <= i < |cs| && cs[i].id == id
    ensures r.Some? ==> r.value.id == id
  {
    if cs == [] then None
    else if cs[0].id == id then Some(cs[0])
    else
      assert forall i :: 1 <= i < |cs| ==> cs[i] == cs[1..][i - 1];
      CustomerById(cs[1..], id)
  }

  // ---------------------------------------------------------------------------
  // Pricing
  // ---------------------------------------------------------------------------

  /** What one submitted item adds to the total: store price × quantity, or 0 for an unknown product. */
  function LineValue(products: map<int, Product>, item: ItemRequest): int {
    if item.idProduto in products then item.quantidade * products[item.idProduto].valor else 0
  }

  /** The total the endpoint accumulates over the submitted items, in submission order. */
  function CartTotal(products: map<int, Product>, itens: seq<ItemRequest>): int {
    if itens == [] then 0
    else CartTotal(products, itens[..|itens| - 1]) + LineValue(products, itens[|itens| - 1])
  }

  lemma {:induction false} CartTotalAppend(products: map<int, Product>, a: seq<ItemRequest>, b: seq<ItemRequest>)
    ensures CartTotal(products, a + b) == CartTotal(products, a) + CartTotal(products, b)
    decreases |b|
  {
    if b == [] {
      assert a + b == a;
    } else {
      assert (a + b)[..|a + b| - 1] == a + b[..|b| - 1];
      CartTotalAppend(products, a, b[..|b| - 1]);
    }
  }

  /** The total does not depend on the order in which the items were submitted. */
  lemma CartTotalSwap(products: map<int, Product>, a: seq<ItemRequest>, b: seq<ItemRequest>)
    ensures CartTotal(products, a + b) == CartTotal(products, b + a)
  {
    CartTotalAppend(products, a, b);
    CartTotalAppend(products, b, a);
  }

  /** An item whose product is not in the store adds nothing and does not stop the pricing. */
  lemma CartTotalSkipsUnknown(products: map<int, Product>, a: seq<ItemRequest>, x: ItemRequest, b: seq<ItemRequest>)
    requires x.idProduto !in products
    ensures CartTotal(products, a + [x] + b) == CartTotal(products, a + b)
  {
    CartTotalAppend(products, a + [x], b);
    CartTotalAppend(products, a, [x]);
    CartTotalAppend(products, a, b);
    assert [x][..0] == [];
  }

  /** The submitted items whose product exists in the store. */
  function KnownItems(products: map<int, Product>, itens: seq<ItemRequest>): seq<ItemRequest> {
    if itens == [] then []
    else
      var last := itens[|itens| - 1];
      KnownItems(products, itens[..|itens| - 1]) + (if last.idProduto in products then [last] else [])
  }

  /** The filter keeps every item of a known product as often as it was submitted, and no other item. */
  lemma {:induction false} KnownItemsCounts(products: map<int, Product>, itens: seq<ItemRequest>)
    ensures forall x :: multiset(KnownItems(products, itens))[x] == if x.idProduto in products then multiset(itens)[x] else 0
    ensures forall x :: x in KnownItems(products, itens) <==> x in itens && x.idProduto in products
  {
    if itens != [] {
      var last := itens[|itens| - 1];
      var init := itens[..|itens| - 1];
      KnownItemsCounts(products, init);
      assert itens == init + [last];
      assert multiset(itens) == multiset(init) + multiset{last};
      var t := if last.idProduto in products then [last] else [];
      assert multiset(KnownItems(products, itens)) == multiset(KnownItems(products, init)) + multiset(t);
    }
  }

  /** The filter keeps the submission order: filtering a concatenation filters each part. */
  lemma {:induction false} KnownItemsAppend(products: map<int, Product>, a: seq<ItemRequest>, b: seq<ItemRequest>)
    ensures KnownItems(products, a + b) == KnownItems(products, a) + KnownItems(products, b)
    decreases |b|
  {
    if b == [] {
      assert a + b == a;
    } else {
      var init, x := b[..|b| - 1], b[|b| - 1];
      assert (a + b)[..|a + b| - 1] == a + init && (a + b)[|a + b| - 1] == x;
      KnownItemsAppend(products, a, init);
      var t := if x.idProduto in products then [x] else [];
      assert KnownItems(products, a + b) == KnownItems(products, a + init) + t;
      assert KnownItems(products, b) == KnownItems(products, init) + t;
    }
  }

  /**
   * The total is the sum of price × quantity over exactly the items whose
   * product exists; the others are dropped without an error.
   */
  lemma {:induction false} CartTotalOfKnownItems(products: map<int, Product>, itens: seq<ItemRequest>)
    ensures CartTotal(products, itens) == CartTotal(products, KnownItems(products, itens))
  {
    if itens != [] {
      var last := itens[|itens| - 1];
      var init := itens[..|itens| - 1];
      CartTotalOfKnownItems(products, init);
      var tail := if last.idProduto in products then [last] else [];
      CartTotalAppend(products, KnownItems(products, init), tail);
      if tail != [] {
        assert tail[..0] == [];
      }
    }
  }

  lemma {:induction false} CartTotalNonNegative(products: map<int, Product>, itens: seq<ItemRequest>)
    requires forall id :: id in products ==> products[id].valor >= 0
    requires forall i :: 0 <= i < |itens| ==> itens[i].quantidade >= 0
    ensures CartTotal(products, itens) >= 0
  {
    if itens != [] {
      CartTotalNonNegative(products, itens[..|itens| - 1]);
    }
  }

  /** Two hot dogs at 12.50 and one soda at 5.00 cost 30.00. */
  lemma CartTotalExample()
    ensures var products := map[1 := Product("Hotdog", "", 1250, 1), 2 := Product("Soda", "", 500, 2)];
      CartTotal(products, [ItemRequest(1, 2, None), ItemRequest(2, 1, None)]) == 3000
  {
    var products := map[1 := Product("Hotdog", "", 1250, 1), 2 := Product("Soda", "", 500, 2)];
    var itens := [ItemRequest(1, 2, None), ItemRequest(2, 1, None)];
    assert itens[..1] == [ItemRequest(1, 2, None)];
    assert itens[..1][..0] == [];
  }

  // ---------------------------------------------------------------------------
  // Line rows and notes
  // ---------------------------------------------------------------------------

  /** `item.observacao || null`: an absent or empty note is stored as NULL. */
  function StoredNote(o: Option<string>): (r: Option<string>)
    ensures r.Some? ==> r.value != "" && o == r
    ensures o.Some? && o.value != "" ==> r == o
  {
    match o
    case Some(s) => if s == "" then None else Some(s)
    case None => None
  }

  /** `item.observacao || ""`: a NULL note is read back as the empty string. */
  function ReadNote(o: Option<string>): string {
    match o
    case Some(s) => s
    case None => ""
  }

  /** A note the client sends comes back unchanged from the listing, the empty note included. */
  lemma NoteRoundTrip(s: string)
    ensures ReadNote(StoredNote(Some(s))) == s
  {
  }

  /** The line rows the endpoint inserts for order `id`: one per submitted item, in submission order. */
  function LinesFor(id: nat, itens: seq<ItemRequest>): (r: seq<OrderLine>)
    ensures |r| == |itens|
    ensures forall i :: 0 <= i < |itens| ==>
      r[i] == OrderLine(id, itens[i].idProduto, itens[i].quantidade, StoredNote(itens[i].observacao))
  {
    if itens == [] then []
    else
      var last := itens[|itens| - 1];
      LinesFor(id, itens[..|itens| - 1]) + [OrderLine(id, last.idProduto, last.quantidade, StoredNote(last.observacao))]
  }

  // ---------------------------------------------------------------------------
  // Read-back
  // ---------------------------------------------------------------------------

  /**
   * The rows of `pedido_has_produtos JOIN produtos` for order `id`: its lines whose
   * product still exists, each with the product's current name and price.
   */
  function JoinItems(products: map<int, Product>, lines: seq<OrderLine>, id: nat): seq<ListedItem> {
    if lines == [] then []
    else
      var l := lines[|lines| - 1];
      JoinItems(products, lines[..|lines| - 1], id) +
        (if l.idPedido == id && l.idProduto in products
         then [ListedItem(l.quantidade, ReadNote(l.observacao), products[l.idProduto].nome, products[l.idProduto].valor)]
         else [])
  }

  /** `itens.reduce((sum, item) => sum + item.quantidade * item.valor, 0)`. */
  function ItemsTotal(items: seq<ListedItem>): int {
    if items == [] then 0
    else ItemsTotal(items[..|items| - 1]) + items[|items| - 1].quantidade * items[|items| - 1].valor
  }

  /** The total the listing shows for order `id`, computed from the current prices. */
  function ListedTotal(products: map<int, Product>, lines: seq<OrderLine>, id: nat): int {
    ItemsTotal(JoinItems(products, lines, id))
  }

  lemma {:induction false} JoinItemsAppend(products: map<int, Product>, a: seq<OrderLine>, b: seq<OrderLine>, id: nat)
    ensures JoinItems(products, a + b, id) == JoinItems(products, a, id) + JoinItems(products, b, id)
    decreases |b|
  {
    if b == [] {
      assert a + b == a;
    } else {
      assert (a + b)[..|a + b| - 1] == a + b[..|b| - 1];
      JoinItemsAppend(products, a, b[..|b| - 1], id);
    }
  }

  lemma {:induction false} ItemsTotalAppend(a: seq<ListedItem>, b: seq<ListedItem>)
    ensures ItemsTotal(a + b) == ItemsTotal(a) + ItemsTotal(b)
    decreases |b|
  {
    if b == [] {
      assert a + b == a;
    } else {
      assert (a + b)[..|a + b| - 1] == a + b[..|b| - 1];
      ItemsTotalAppend(a, b[..|b| - 1]);
    }
  }

  /** Lines of other orders contribute nothing to the listing of order `id`. */
  lemma {:induction false} JoinItemsOtherOrders(products: map<int, Product>, lines: seq<OrderLine>, id: nat)
    requires forall i :: 0 <= i < |lines| ==> lines[i].idPedido != id
    ensures JoinItems(products, lines, id) == []
  {
    if lines != [] {
      JoinItemsOtherOrders(products, lines[..|lines| - 1], id);
    }
  }

  /** Reading back the lines written for a cart gives the total the pricing computed. */
  lemma {:induction false} JoinLinesFor(products: map<int, Product>, id: nat, itens: seq<ItemRequest>)
    ensures ItemsTotal(JoinItems(products, LinesFor(id, itens), id)) == CartTotal(products, itens)
  {
    if itens != [] {
      var init := itens[..|itens| - 1];
      var last := itens[|itens| - 1];
      JoinLinesFor(products, id, init);
      var ls := LinesFor(id, itens);
      assert ls[..|ls| - 1] == LinesFor(id, init);
      var tail := if last.idProduto in products
        then [ListedItem(last.quantidade, ReadNote(StoredNote(last.observacao)), products[last.idProduto].nome, products[last.idProduto].valor)]
        else [];
      ItemsTotalAppend(JoinItems(products, LinesFor(id, init), id), tail);
      if tail != [] {
        assert tail[..0] == [];
      }
    }
  }

  /**
   * Right after an order is written, and as long as no price changes, the
   * listing's recomputed total equals the total that was stored.
   */
  lemma ListedTotalOfNewOrder(products: map<int, Product>, lines: seq<OrderLine>, id: nat, itens: seq<ItemRequest>)
    requires forall i :: 0 <= i < |lines| ==> lines[i].idPedido != id
    ensures ListedTotal(products, lines + LinesFor(id, itens), id) == CartTotal(products, itens)
  {
    JoinItemsAppend(products, lines, LinesFor(id, itens), id);
    JoinItemsOtherOrders(products, lines, id);
    assert [] + JoinItems(products, LinesFor(id, itens), id) == JoinItems(products, LinesFor(id, itens), id);
    JoinLinesFor(products, id, itens);
  }

  /**
   * The listing uses current prices, not the stored total: after a price change
   * (or a deletion) the listed total of an existing order differs from what was stored.
   */
  lemma ListedTotalDrifts()
    ensures var lines := [OrderLine(1, 7, 2, None)];
      var before := map[7 := Product("Hotdog", "", 1250, 1)];
      var after := map[7 := Product("Hotdog", "", 1500, 1)];
      ListedTotal(before, lines, 1) == 2500 && ListedTotal(after, lines, 1) == 3000
      && ListedTotal(map[], lines, 1) == 0
  {
    var lines := [OrderLine(1, 7, 2, None)];
    assert lines[..0] == [];
  }

  /** The listed form of one order joined with its customer. */
  function Listed(o: Order, c: Customer, products: map<int, Product>, lines: seq<OrderLine>): ListedOrder {
    var itens := JoinItems(products, lines, o.id);
    ListedOrder(o.id, o.data, o.formaPagamento, o.status,
                c.identity.nome, c.identity.telefone, c.identity.rua, c.identity.bairro,
                itens, ItemsTotal(itens))
  }

  // ---------------------------------------------------------------------------
  // The database and the endpoints
  // ---------------------------------------------------------------------------

  class Database {
    var customers: seq<Customer>
    var nextCustomerId: nat
    var products: map<int, Product>
    var orders: seq<Order>
    var nextOrderId: nat
    var lines: seq<OrderLine>

    /** Auto-increment ids grow with insertion order; every row refers to rows that exist. */
    ghost predicate Valid()
      reads this
    {
      && (forall i :: 0 <= i < |customers| ==> customers[i].id < nextCustomerId)
      && (forall i, j :: 0 <= i < j < |customers| ==> customers[i].id < customers[j].id)
      && (forall i :: 0 <= i < |orders| ==> orders[i].id < nextOrderId)
      && (forall i, j :: 0 <= i < j < |orders| ==> orders[i].id < orders[j].id)
      && (forall i :: 0 <= i < |orders| ==> CustomerById(customers, orders[i].idCliente).Some?)
      && (forall i :: 0 <= i < |lines| ==> lines[i].idPedido < nextOrderId)
    }

    constructor (catalog: map<int, Product>)
      ensures Valid()
      ensures customers == [] && orders == [] && lines == [] && products == catalog
      ensures nextCustomerId == 1 && nextOrderId == 1
    {
      customers, orders, lines, products := [], [], [], catalog;
      nextCustomerId, nextOrderId := 1, 1;
    }

    /** `SELECT id_cliente FROM cliente WHERE nome = ? AND telefone = ? AND rua = ? AND bairro = ?`, first row. */
    method FindCustomer(k: Identity) returns (found: Option<nat>)
      ensures found == LookupCustomer(customers, k)
    {
      var i := 0;
      while i < |customers|
        invariant 0 <= i <= |customers|
        invariant LookupCustomer(customers[i..], k) == LookupCustomer(customers, k)
      {
        if customers[i].identity == k {
          return Some(customers[i].id);
        }
        assert customers[i..][1..] == customers[i + 1..];
        i := i + 1;
      }
      found := None;
    }

    /** `INSERT INTO cliente ...`, returning `insertId`. */
    method InsertCustomer(k: Identity) returns (id: nat)
      requires Valid()
      modifies this
      ensures Valid()
      ensures id == old(nextCustomerId) && nextCustomerId == id + 1
      ensures customers == old(customers) + [Customer(id, k)]
      ensures products == old(products) && orders == old(orders) && lines == old(lines)
      ensures nextOrderId == old(nextOrderId)
    {
      id := nextCustomerId;
      CustomersGrow(customers, Customer(id, k));
      customers := customers + [Customer(id, k)];
      nextCustomerId := nextCustomerId + 1;
    }

    /** Lines 236-250: the existing customer's id, or the id of a newly inserted one. */
    method ResolveCustomer(k: Identity) returns (id: nat)
      requires Valid()
      modifies this
      ensures Valid()
      ensures Resolve(old(customers), old(nextCustomerId), k) == Resolution(customers, nextCustomerId, id)
      ensures products == old(products) && orders == old(orders) && lines == old(lines)
      ensures nextOrderId == old(nextOrderId)
    {
      var existing := FindCustomer(k);
      if existing.Some? {
        id := existing.value;
      } else {
        id := InsertCustomer(k);
      }
    }

    /** Lines 253-269: the order total from the store's prices, skipping unknown products. */
    method PriceItems(itens: seq<ItemRequest>) returns (total: int)
      ensures total == CartTotal(products, itens)
    {
      total := 0;
      var i := 0;
      while i < |itens|
        invariant 0 <= i <= |itens|
        invariant total == CartTotal(products, itens[..i])
      {
        assert itens[..i + 1][..i] == itens[..i];
        var item := itens[i];
        if item.idProduto !in products {
          i := i + 1;
          continue;
        }
        var preco := products[item.idProduto].valor;
        total := total + item.quantidade * preco;
        i := i + 1;
      }
      assert itens[..i] == itens;
    }

    /** `INSERT INTO pedido (data, forma_pagamento, status, id_cliente, valor_total) ...`, returning `insertId`. */
    method InsertOrder(data: int, formaPagamento: int, status: int, idCliente: nat, valorTotal: int) returns (id: nat)
      requires Valid() && CustomerById(customers, idCliente).Some?
      modifies this
      ensures Valid()
      ensures id == old(nextOrderId) && nextOrderId == id + 1
      ensures orders == old(orders) + [Order(id, data, formaPagamento, status, idCliente, valorTotal)]
      ensures customers == old(customers) && nextCustomerId == old(nextCustomerId)
      ensures products == old(products) && lines == old(lines)
    {
      id := nextOrderId;
      orders := orders + [Order(id, data, formaPagamento, status, idCliente, valorTotal)];
      nextOrderId := nextOrderId + 1;
    }

    /** `INSERT INTO pedido_has_produtos (id_pedido, id_produto, quantidade, observacao) ...`. */
    method InsertLine(line: OrderLine)
      requires Valid() && line.idPedido < nextOrderId
      modifies this
      ensures Valid()
      ensures lines == old(lines) + [line]
      ensures customers == old(customers) && nextCustomerId == old(nextCustomerId)
      ensures products == old(products) && orders == old(orders) && nextOrderId == old(nextOrderId)
    {
      lines := lines + [line];
    }

    /** Lines 281-287: one `INSERT INTO pedido_has_produtos` per submitted item, one after the other. */
    method InsertLines(idPedido: nat, itens: seq<ItemRequest>)
      requires Valid() && idPedido < nextOrderId
      modifies this
      ensures Valid()
      ensures lines == old(lines) + LinesFor(idPedido, itens)
      ensures customers == old(customers) && nextCustomerId == old(nextCustomerId)
      ensures products == old(products) && orders == old(orders) && nextOrderId == old(nextOrderId)
    {
      var i := 0;
      while i < |itens|
        invariant 0 <= i <= |itens|
        invariant Valid()
        invariant lines == old(lines) + LinesFor(idPedido, itens[..i])
        invariant customers == old(customers) && nextCustomerId == old(nextCustomerId)
        invariant products == old(products) && orders == old(orders) && nextOrderId == old(nextOrderId)
      {
        var item := itens[i];
        InsertLine(OrderLine(idPedido, item.idProduto, item.quantidade, StoredNote(item.observacao)));
        assert itens[..i + 1][..i] == itens[..i];
        i := i + 1;
      }
      assert itens[..i] == itens;
    }

    /**
     * `POST /finalizar-pedido`: resolve the customer, price the items, insert the
     * header with status 1, then one line row per submitted item. Each step is
     * its own write; nothing groups them into a transaction.
     */
    method FinalizarPedido(req: OrderRequest, now: int) returns (resp: FinalizeResponse)
      requires Valid()
      modifies this
      ensures Valid()
      ensures var r := Resolve(old(customers), old(nextCustomerId), req.identity);
        && customers == r.customers && nextCustomerId == r.nextId
        && orders == old(orders) + [Order(old(nextOrderId), now, PaymentCode(req.formaPagamento),
                                          StatusPlaced, r.id, CartTotal(old(products), req.itens))]
      ensures lines == old(lines) + LinesFor(old(nextOrderId), req.itens)
      ensures products == old(products) && nextOrderId == old(nextOrderId) + 1
      ensures resp == FinalizeResponse(old(nextOrderId), CartTotal(products, req.itens),
                                       "Pedido finalizado, " + req.identity.nome + "!")
      ensures ListedTotal(products, lines, resp.idPedido) == resp.valorTotal
    {
      var pagamento := PaymentCode(req.formaPagamento);
      var idCliente := ResolveCustomer(req.identity);
      CustomerByIdPresent(customers, idCliente, req.identity);
      var valorTotal := PriceItems(req.itens);
      var idPedido := InsertOrder(now, pagamento, StatusPlaced, idCliente, valorTotal);
      InsertLines(idPedido, req.itens);
      ListedTotalOfNewOrder(products, old(lines), idPedido, req.itens);
      resp := FinalizeResponse(idPedido, valorTotal, "Pedido finalizado, " + req.identity.nome + "!");
    }

    /**
     * `GET /pedidos`: every order, newest id first, joined with its customer, with
     * its lines joined to the current products and its total recomputed from them.
     */
    method ListarPedidos() returns (listed: seq<ListedOrder>)
      requires Valid()
      ensures |listed| == |orders|
      ensures forall k :: 0 <= k < |listed| ==>
        var o := orders[|orders| - 1 - k];
        listed[k] == Listed(o, CustomerById(customers, o.idCliente).value, products, lines)
      ensures forall i, j :: 0 <= i < j < |listed| ==> listed[i].id > listed[j].id
      ensures forall k :: 0 <= k < |listed| ==> listed[k].valorTotal == ListedTotal(products, lines, listed[k].id)
    {
      listed := [];
      var i := |orders|;
      while i > 0
        invariant 0 <= i <= |orders|
        invariant |listed| == |orders| - i
        invariant forall k :: 0 <= k < |listed| ==>
          var o := orders[|orders| - 1 - k];
          listed[k] == Listed(o, CustomerById(customers, o.idCliente).value, products, lines)
      {
        var pedido := orders[i - 1];
        var cliente := CustomerById(customers, pedido.idCliente).value;
        var itens := JoinItems(products, lines, pedido.id);
        var valorTotal := ItemsTotal(itens);
        listed := listed + [ListedOrder(pedido.id, pedido.data, pedido.formaPagamento, pedido.status,
                                        cliente.identity.nome, cliente.identity.telefone,
                                        cliente.identity.rua, cliente.identity.bairro,
                                        itens, valorTotal)];
        i := i - 1;
      }
    }

    /** `DELETE /produtos/:id`: not found when no row was affected. */
    method DeleteProduct(id: int) returns (outcome: DeleteOutcome)
      requires Valid()
      modifies this
      ensures Valid()
      ensures outcome == (if id in old(products) then Deleted else NotFound)
      ensures products == old(products) - {id}
      ensures outcome == NotFound ==> products == old(products)
      ensures customers == old(customers) && orders == old(orders) && lines == old(lines)
      ensures nextCustomerId == old(nextCustomerId) && nextOrderId == old(nextOrderId)
    {
      if id in products {
        products := products - {id};
        outcome := Deleted;
      } else {
        outcome := NotFound;
      }
    }
  }

  /** Appending a customer with a larger id keeps earlier customers findable by id. */
  lemma CustomersGrow(cs: seq<Customer>, c: Customer)
    ensures forall id :: CustomerById(cs, id).Some? ==> CustomerById(cs + [c], id).Some?
  {
    forall id | CustomerById(cs, id).Some?
      ensures CustomerById(cs + [c], id).Some?
    {
      var i :| 0 <= i < |cs| && cs[i].id == id;
      assert (cs + [c])[i] == cs[i];
    }
  }

  lemma CustomerByIdPresent(cs: seq<Customer>, id: nat, k: Identity)
    requires exists i :: 0 <= i < |cs| && cs[i] == Customer(id, k)
    ensures CustomerById(cs, id).Some?
  {
  }
}
