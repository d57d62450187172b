/**
 * The electronics point of sale: a fixed catalogue, a cart with one line per
 * product, scanning by product code, quantity buttons, removal, recommendations
 * from the selected customer's preferences, voice commands and checkout.
 * Prices are in cents and ratings in tenths of a star.
 */
module PointOfSale {
  import opened Js

  /** A catalogue product, or (with its quantity) a cart line. */
  datatype Product = Product(
    id: string, name: string, price: int, quantity: int, category: string,
    stock: nat, rating: nat, discount: Option<nat>)

  datatype Customer = Customer(id: string, name: string, loyaltyPoints: nat, preferences: seq<string>)

  const Catalogue: seq<Product> := [
    Product("1", "Ultra HD 8K TV", 299999, 1, "TVs", 15, 48, Some(10)),
    Product("2", "Quantum Laptop Pro", 179999, 1, "Computers", 23, 45, None),
    Product("3", "NextGen Gaming Console", 49999, 1, "Gaming", 37, 49, Some(5)),
    Product("4", "Smart Home Hub", 19999, 1, "Smart Home", 42, 42, None),
    Product("5", "Professional Camera Set", 249999, 1, "Photography", 8, 47, None),
    Product("6", "Wireless Noise-Canceling Headphones", 34999, 1, "Audio", 50, 46, None),
    Product("7", "Smartphone X", 99999, 1, "Phones", 30, 44, Some(15)),
    Product("8", "Robotic Vacuum Cleaner", 39999, 1, "Smart Home", 18, 43, None)
  ]

  const Customers: seq<Customer> := [
    Customer("1", "John Doe", 500, ["Gaming", "Computers"]),
    Customer("2", "Jane Smith", 750, ["Smart Home", "Photography"]),
    Customer("3", "Bob Johnson", 250, ["TVs", "Gaming"]),
    Customer("4", "Alice Brown", 1000, ["Audio", "Phones"])
  ]

  predicate DistinctIds(lines: seq<Product>)
  {
    forall i, j :: 0 <= i < j < |lines| ==> lines[i].id != lines[j].id
  }

  /** The cart invariant: one line per product id, every quantity positive. */
  predicate CartValid(cart: seq<Product>)
  {
    DistinctIds(cart) && forall i :: 0 <= i < |cart| ==> cart[i].quantity > 0
  }

  /** `cart.some(p => p.id === id)` */
  predicate InCart(cart: seq<Product>, id: string)
  {
    exists i :: 0 <= i < |cart| && cart[i].id == id
  }

  /** The quantity of product `id` in the cart, 0 when it has no line. */
  function Qty(cart: seq<Product>, id: string): int
  {
    match Find(cart, (l: Product) => l.id == id)
    case Some(l) => l.quantity
    case None => 0
  }

  lemma QtyAt(cart: seq<Product>, i: int)
    requires DistinctIds(cart) && 0 <= i < |cart|
    ensures Qty(cart, cart[i].id) == cart[i].quantity
  {
    FindFirstMatch(cart, (l: Product) => l.id == cart[i].id, i);
  }

  lemma QtyAbsent(cart: seq<Product>, id: string)
    requires !InCart(cart, id)
    ensures Qty(cart, id) == 0
  {
  }

  /** The catalogue lists each product code once. */
  lemma CatalogueIdsDistinct()
    ensures DistinctIds(Catalogue)
  {
  }

  /** `products.find(p => p.id === code)` */
  function FindProduct(products: seq<Product>, code: string): Option<Product>
  {
    Find(products, (p: Product) => p.id == code)
  }

  /** In a catalogue with distinct codes, each product is found by its own code. */
  lemma FindProductByCode(products: seq<Product>)
    requires DistinctIds(products)
    ensures forall i :: 0 <= i < |products| ==> FindProduct(products, products[i].id) == Some(products[i])
  {
    forall i | 0 <= i < |products|
      ensures FindProduct(products, products[i].id) == Some(products[i])
    {
      FindFirstMatch(products, (p: Product) => p.id == products[i].id, i);
    }
  }

  /** The product codes are "1" to "8"; any other code finds nothing. */
  lemma ProductCodes(code: string)
    ensures FindProduct(Catalogue, code).Some? <==> code in ["1", "2", "3", "4", "5", "6", "7", "8"]
  {
    var codes := ["1", "2", "3", "4", "5", "6", "7", "8"];
    assert forall i :: 0 <= i < |Catalogue| ==> Catalogue[i].id == codes[i];
    if code in codes {
      var i :| 0 <= i < |codes| && codes[i] == code;
      assert Catalogue[i].id == code;
    }
  }

  // ---------------------------------------------------------------------------
  // Cart edits
  // ---------------------------------------------------------------------------

  /** The timer callback of `addProduct` for a found product: one more of an existing line, else a new line of 1. */
  function ScanInto(cart: seq<Product>, p: Product): seq<Product>
  {
    match Find(cart, (l: Product) => l.id == p.id)
    case Some(_) => MapSeq(cart, (l: Product) => if l.id == p.id then l.(quantity := l.quantity + 1) else l)
    case None => cart + [p.(quantity := 1)]
  }

  /**
   * Scanning keeps the cart invariant, raises the product's quantity by one
   * (a new line holds 1) and leaves every other product's quantity alone.
   */
  lemma ScanIntoSpec(cart: seq<Product>, p: Product)
    requires CartValid(cart)
    ensures CartValid(ScanInto(cart, p))
    ensures Qty(ScanInto(cart, p), p.id) == Qty(cart, p.id) + 1
    ensures forall id :: id != p.id ==> Qty(ScanInto(cart, p), id) == Qty(cart, id)
    ensures InCart(ScanInto(cart, p), p.id)
  {
    if i :| 0 <= i < |cart| && cart[i].id == p.id {
      ScanBumpsLine(cart, p, i);
      forall id | id != p.id ensures Qty(ScanInto(cart, p), id) == Qty(cart, id) {
        ScanBumpKeepsOther(cart, p, i, id);
      }
    } else {
      ScanAppendsLine(cart, p);
      forall id | id != p.id ensures Qty(ScanInto(cart, p), id) == Qty(cart, id) {
        ScanAppendKeepsOther(cart, p, id);
      }
    }
  }

  /** The part of `ScanIntoSpec` about the scanned product alone. */
  lemma ScanIntoKeepsCart(cart: seq<Product>, p: Product)
    requires CartValid(cart)
    ensures CartValid(ScanInto(cart, p)) && Qty(ScanInto(cart, p), p.id) == Qty(cart, p.id) + 1
  {
    if i :| 0 <= i < |cart| && cart[i].id == p.id {
      ScanBumpsLine(cart, p, i);
    } else {
      ScanAppendsLine(cart, p);
    }
  }

  /** Scanning a product that has line `i`: that line gains one. */
  lemma ScanBumpsLine(cart: seq<Product>, p: Product, i: int)
    requires CartValid(cart) && 0 <= i < |cart| && cart[i].id == p.id
    ensures var r := ScanInto(cart, p);
      CartValid(r) && Qty(r, p.id) == Qty(cart, p.id) + 1 && InCart(r, p.id)
  {
    var r := ScanInto(cart, p);
    assert r[i] == cart[i].(quantity := cart[i].quantity + 1);
    QtyAt(cart, i);
    QtyAt(r, i);
  }

  lemma ScanBumpKeepsOther(cart: seq<Product>, p: Product, i: int, id: string)
    requires CartValid(cart) && 0 <= i < |cart| && cart[i].id == p.id && id != p.id
    ensures Qty(ScanInto(cart, p), id) == Qty(cart, id)
  {
    var r := ScanInto(cart, p);
    assert InCart(cart, p.id);
    assert |r| == |cart| && forall j :: 0 <= j < |r| ==> r[j].id == cart[j].id;
    if k :| 0 <= k < |cart| && cart[k].id == id {
      QtyAt(cart, k);
      QtyAt(r, k);
    } else {
      QtyAbsent(cart, id);
      QtyAbsent(r, id);
    }
  }

  /** Scanning a product without a line: a new last line of 1. */
  lemma ScanAppendsLine(cart: seq<Product>, p: Product)
    requires CartValid(cart) && !InCart(cart, p.id)
    ensures var r := ScanInto(cart, p);
      CartValid(r) && Qty(r, p.id) == Qty(cart, p.id) + 1 && InCart(r, p.id)
  {
    var r := ScanInto(cart, p);
    var n := |cart|;
    assert r == cart + [p.(quantity := 1)];
    assert r[n] == p.(quantity := 1);
    QtyAbsent(cart, p.id);
    QtyAt(r, n);
  }

  lemma ScanAppendKeepsOther(cart: seq<Product>, p: Product, id: string)
    requires CartValid(cart) && !InCart(cart, p.id) && id != p.id
    ensures Qty(ScanInto(cart, p), id) == Qty(cart, id)
  {
    var r := ScanInto(cart, p);
    var n := |cart|;
    assert r == cart + [p.(quantity := 1)];
    ScanAppendsLine(cart, p);
    if k :| 0 <= k < |cart| && cart[k].id == id {
      QtyAt(cart, k);
      assert r[k] == cart[k];
      QtyAt(r, k);
    } else {
      QtyAbsent(cart, id);
      assert !InCart(r, id) by {
        forall k | 0 <= k < |r| ensures r[k].id != id {
          if k < n { assert r[k] == cart[k]; }
        }
      }
      QtyAbsent(r, id);
    }
  }

  function Max0(v: int): int { if v < 0 then 0 else v }

  /** The line `l` after `updateQuantity(id, change)`'s map step. */
  function Bump(l: Product, id: string, change: int): Product
  {
    if l.id == id then l.(quantity := Max0(l.quantity + change)) else l
  }

  /** `updateQuantity`: change the line's quantity, not below 0, then drop empty lines. */
  function UpdateQuantity(cart: seq<Product>, id: string, change: int): seq<Product>
  {
    Filter(MapSeq(cart, (l: Product) => Bump(l, id, change)), (l: Product) => l.quantity > 0)
  }

  lemma FilterKeepsDistinctIds(lines: seq<Product>, p: Product -> bool)
    requires DistinctIds(lines)
    ensures DistinctIds(Filter(lines, p))
  {
    FilterKeepsDistinctKeys(lines, p, (l: Product) => l.id);
  }

  /** Dropping the lines of quantity 0 changes no product's quantity. */
  lemma DropEmptyLinesKeepsQty(m: seq<Product>, id: string)
    requires DistinctIds(m) && forall i :: 0 <= i < |m| ==> m[i].quantity >= 0
    ensures Qty(Filter(m, (l: Product) => l.quantity > 0), id) == Qty(m, id)
  {
    var pos := (l: Product) => l.quantity > 0;
    var r := Filter(m, pos);
    FilterKeepsDistinctIds(m, pos);
    if i :| 0 <= i < |m| && m[i].id == id {
      QtyAt(m, i);
      if m[i].quantity > 0 {
        assert m[i] in r;
        var k :| 0 <= k < |r| && r[k] == m[i];
        QtyAt(r, k);
      } else {
        forall k | 0 <= k < |r| ensures r[k].id != id {
          assert r[k] in m;
        }
        QtyAbsent(r, id);
      }
    } else {
      forall k | 0 <= k < |r| ensures r[k].id != id {
        assert r[k] in m;
      }
      QtyAbsent(m, id);
      QtyAbsent(r, id);
    }
  }

  /** The map step of `updateQuantity` keeps every line's id and leaves no quantity negative. */
  lemma BumpKeepsIds(cart: seq<Product>, id: string, change: int)
    requires CartValid(cart)
    ensures var m := MapSeq(cart, (l: Product) => Bump(l, id, change));
      && |m| == |cart| && (forall i :: 0 <= i < |m| ==> m[i].id == cart[i].id)
      && DistinctIds(m) && (forall i :: 0 <= i < |m| ==> m[i].quantity >= 0)
  {
    var m := MapSeq(cart, (l: Product) => Bump(l, id, change));
    assert forall i :: 0 <= i < |m| ==> m[i].id == cart[i].id;
  }

  /** The map step of `updateQuantity` changes only the quantity of product `id`. */
  lemma BumpedQty(cart: seq<Product>, id: string, change: int, x: string)
    requires CartValid(cart)
    ensures var m := MapSeq(cart, (l: Product) => Bump(l, id, change));
      && DistinctIds(m) && (forall i :: 0 <= i < |m| ==> m[i].quantity >= 0)
      && Qty(m, x) == if x == id && InCart(cart, id) then Max0(Qty(cart, id) + change) else Qty(cart, x)
  {
    var m := MapSeq(cart, (l: Product) => Bump(l, id, change));
    BumpKeepsIds(cart, id, change);
    if k :| 0 <= k < |cart| && cart[k].id == x {
      QtyAt(cart, k);
      QtyAt(m, k);
    } else {
      QtyAbsent(cart, x);
      QtyAbsent(m, x);
    }
  }

  /**
   * The quantity buttons keep the cart invariant, set the product's quantity
   * to max(0, quantity + change) (0 meaning its line is gone), never create a
   * line, and leave every other product's quantity alone.
   */
  lemma UpdateQuantitySpec(cart: seq<Product>, id: string, change: int)
    requires CartValid(cart)
    ensures CartValid(UpdateQuantity(cart, id, change))
    ensures Qty(UpdateQuantity(cart, id, change), id) ==
            if InCart(cart, id) then Max0(Qty(cart, id) + change) else 0
    ensures forall other :: other != id ==> Qty(UpdateQuantity(cart, id, change), other) == Qty(cart, other)
  {
    var m := MapSeq(cart, (l: Product) => Bump(l, id, change));
    BumpedQty(cart, id, change, id);
    FilterKeepsDistinctIds(m, (l: Product) => l.quantity > 0);
    DropEmptyLinesKeepsQty(m, id);
    if !InCart(cart, id) {
      QtyAbsent(cart, id);
    }
    forall other | other != id
      ensures Qty(UpdateQuantity(cart, id, change), other) == Qty(cart, other)
    {
      BumpedQty(cart, id, change, other);
      DropEmptyLinesKeepsQty(m, other);
    }
  }

  /** `removeProduct`'s filter: drop the product's line. */
  function RemoveLine(cart: seq<Product>, id: string): seq<Product>
  {
    Filter(cart, (l: Product) => l.id != id)
  }

  /**
   * Removal keeps the cart invariant, leaves no line for the product and keeps
   * every other product's quantity.
   */
  lemma RemoveLineSpec(cart: seq<Product>, id: string)
    requires CartValid(cart)
    ensures CartValid(RemoveLine(cart, id))
    ensures !InCart(RemoveLine(cart, id), id) && Qty(RemoveLine(cart, id), id) == 0
    ensures forall other :: other != id ==> Qty(RemoveLine(cart, id), other) == Qty(cart, other)
  {
    var keep := (l: Product) => l.id != id;
    var r := Filter(cart, keep);
    FilterKeepsDistinctIds(cart, keep);
    forall other | other != id
      ensures Qty(r, other) == Qty(cart, other)
    {
      if k :| 0 <= k < |cart| && cart[k].id == other {
        QtyAt(cart, k);
        assert cart[k] in r;
        var j :| 0 <= j < |r| && r[j] == cart[k];
        QtyAt(r, j);
      } else {
        forall j | 0 <= j < |r| ensures r[j].id != other { assert r[j] in cart; }
        QtyAbsent(cart, other);
        QtyAbsent(r, other);
      }
    }
  }

  // ---------------------------------------------------------------------------
  // Recommendations
  // ---------------------------------------------------------------------------

  /** A product the selected customer might want: not in the cart, in one of their categories. */
  predicate Recommendable(cart: seq<Product>, customer: Option<Customer>, p: Product)
  {
    !InCart(cart, p.id) && customer.Some? && p.category in customer.value.preferences
  }

  /** `recommendedProducts`: the first three recommendable catalogue products. */
  function Recommended(products: seq<Product>, cart: seq<Product>, customer: Option<Customer>): seq<Product>
  {
    Slice(Filter(products, (p: Product) => Recommendable(cart, customer, p)), 0, 3)
  }

  /**
   * At most three products are recommended, each from the catalogue, not in
   * the cart and in a preferred category; they are the first such products in
   * catalogue order, so when fewer than three are recommended none was left
   * out. Without a selected customer nothing is recommended.
   */
  lemma RecommendedSpec(products: seq<Product>, cart: seq<Product>, customer: Option<Customer>)
    ensures var r := Recommended(products, cart, customer);
      var all := Filter(products, (p: Product) => Recommendable(cart, customer, p));
      && |r| <= 3
      && (forall i :: 0 <= i < |r| ==> r[i] in products && Recommendable(cart, customer, r[i]))
      && r == all[..if |all| < 3 then |all| else 3]
      && (|r| < 3 ==> forall i :: 0 <= i < |products| && Recommendable(cart, customer, products[i]) ==> products[i] in r)
      && (customer.None? ==> r == [])
  {
    var all := Filter(products, (p: Product) => Recommendable(cart, customer, p));
    assert |all| > 0 ==> Recommendable(cart, customer, all[0]);
  }

  // ---------------------------------------------------------------------------
  // Voice commands
  // ---------------------------------------------------------------------------

  /** Neither starts nor ends with white space. */
  predicate Trimmed(s: string)
  {
    s == [] || (!IsSpace(s[0]) && !IsSpace(s[|s| - 1]))
  }

  datatype Speech = AddNamed(name: string) | RemoveNamed(name: string) | CheckoutCmd | Unrecognised

  /**
   * `handleSpeechResult`'s reading of a transcript: lower-cased, "add"/"scan"
   * first, then "remove"/"delete", then "checkout"; the product name is what
   * remains after removing the first occurrence of each keyword and trimming.
   */
  function ParseSpeech(transcript: string): (r: Speech)
    ensures var c := ToLower(transcript);
      r.AddNamed? <==> Includes(c, "add") || Includes(c, "scan")
    ensures var c := ToLower(transcript);
      r.RemoveNamed? <==> !(Includes(c, "add") || Includes(c, "scan")) && (Includes(c, "remove") || Includes(c, "delete"))
    ensures var c := ToLower(transcript);
      r.CheckoutCmd? <==> !(Includes(c, "add") || Includes(c, "scan") || Includes(c, "remove") || Includes(c, "delete"))
                          && Includes(c, "checkout")
    ensures r.AddNamed? ==> r.name == NameAfter(ToLower(transcript), "add", "scan")
    ensures r.RemoveNamed? ==> r.name == NameAfter(ToLower(transcript), "remove", "delete")
    ensures (r.AddNamed? || r.RemoveNamed?) ==> Trimmed(r.name)
  {
    var command := ToLower(transcript);
    if Includes(command, "add") || Includes(command, "scan") then
      AddNamed(NameAfter(command, "add", "scan"))
    else if Includes(command, "remove") || Includes(command, "delete") then
      RemoveNamed(NameAfter(command, "remove", "delete"))
    else if Includes(command, "checkout") then CheckoutCmd
    else Unrecognised
  }

  /** The product name in a command: the first occurrence of each keyword removed, then trimmed. */
  function NameAfter(command: string, first: string, second: string): (name: string)
    ensures Trimmed(name)
  {
    Trim(ReplaceFirst(ReplaceFirst(command, first, ""), second, ""))
  }

  /** The first product whose lower-cased name contains `name`. */
  function FindByName(lines: seq<Product>, name: string): Option<Product>
  {
    Find(lines, (p: Product) => Includes(ToLower(p.name), name))
  }

  /** An empty product name is contained in every name, so it picks the first product. */
  lemma EmptyNamePicksFirst(lines: seq<Product>)
    requires |lines| > 0
    ensures FindByName(lines, "") == Some(lines[0])
  {
    IncludesEmpty(ToLower(lines[0].name));
    FindFirstMatch(lines, (p: Product) => Includes(ToLower(p.name), ""), 0);
  }

  /** Saying just "add" adds the first catalogue product, the 8K TV. */
  lemma SayingAddPicksFirstProduct()
    ensures ParseSpeech("add") == AddNamed("")
    ensures FindByName(Catalogue, "") == Some(Catalogue[0]) && Catalogue[0].name == "Ultra HD 8K TV"
  {
    assert ToLower("add") == "add";
    IncludesSelf("add");
    assert IndexOf("add", "add") == 0 by { assert OccursAt("add", "add", 0); }
    assert ReplaceFirst("add", "add", "") == "";
    assert !Includes("", "scan");
    EmptyNamePicksFirst(Catalogue);
  }

  /** The register fields a voice command can change. */
  datatype SaleState = SaleState(
    cart: seq<Product>, lastScanned: Option<Product>, notifications: seq<string>,
    scannedCode: string, isScanning: bool, customerName: string, discount: int,
    selectedCustomer: Option<Customer>, giftWrap: bool)

  /**
   * What `handleSpeechResult` does with a parsed command: add and remove run
   * `addProduct` and `removeProduct` on the cart the listener captured,
   * checkout runs `handleCheckout`, and anything else is ignored.
   */
  function Obey(s: SaleState, captured: seq<Product>, products: seq<Product>, cmd: Speech): SaleState
  {
    match cmd
    case AddNamed(name) =>
      (match FindByName(products, name)
       case Some(p) =>
         s.(cart := ScanInto(captured, p), lastScanned := Some(p),
            notifications := s.notifications + [p.name + " added to cart"], scannedCode := "", isScanning := false)
       case None => s)
    case RemoveNamed(name) =>
      (match FindByName(captured, name)
       case Some(l) =>
         s.(cart := RemoveLine(captured, l.id), notifications := s.notifications + [l.name + " removed from cart"])
       case None => s)
    case CheckoutCmd =>
      s.(cart := [], customerName := "", discount := 0, lastScanned := None, selectedCustomer := None,
         giftWrap := false, notifications := s.notifications + ["Checkout completed successfully"])
    case Unrecognised => s
  }

  /**
   * A voice command acts like the matching button, on the captured cart: it
   * keeps the cart invariant and adds at most one notification; a found "add"
   * raises that product's quantity over the captured cart by one and keeps
   * every other; a found "remove" drops that line and keeps every other;
   * checkout empties the cart and forgets the customer; a command that names
   * nothing found, or is not recognised, changes nothing; and only checkout
   * touches the customer, discount and gift wrap.
   */
  lemma ObeySpec(s: SaleState, captured: seq<Product>, products: seq<Product>, cmd: Speech)
    requires CartValid(s.cart) && CartValid(captured)
    ensures var r := Obey(s, captured, products, cmd);
      && CartValid(r.cart)
      && |s.notifications| <= |r.notifications| <= |s.notifications| + 1
      && r.notifications[..|s.notifications|] == s.notifications
      && (cmd.AddNamed? && FindByName(products, cmd.name).Some? ==>
            var p := FindByName(products, cmd.name).value;
            && Qty(r.cart, p.id) == Qty(captured, p.id) + 1
            && (forall id :: id != p.id ==> Qty(r.cart, id) == Qty(captured, id))
            && r.lastScanned == Some(p) && r.notifications == s.notifications + [p.name + " added to cart"]
            && r.scannedCode == "" && !r.isScanning)
      && (cmd.RemoveNamed? && FindByName(captured, cmd.name).Some? ==>
            var l := FindByName(captured, cmd.name).value;
            && !InCart(r.cart, l.id)
            && (forall id :: id != l.id ==> Qty(r.cart, id) == Qty(captured, id))
            && r.lastScanned == s.lastScanned && r.notifications == s.notifications + [l.name + " removed from cart"])
      && (cmd.CheckoutCmd? ==>
            && r.cart == [] && r.selectedCustomer == None && r.lastScanned == None
            && r.customerName == "" && r.discount == 0 && !r.giftWrap
            && r.scannedCode == s.scannedCode && r.isScanning == s.isScanning
            && r.notifications == s.notifications + ["Checkout completed successfully"])
      && ((|| cmd.Unrecognised?
           || (cmd.AddNamed? && FindByName(products, cmd.name).None?)
           || (cmd.RemoveNamed? && FindByName(captured, cmd.name).None?)) ==> r == s)
      && (!cmd.CheckoutCmd? ==>
            r.customerName == s.customerName && r.discount == s.discount
            && r.selectedCustomer == s.selectedCustomer && r.giftWrap == s.giftWrap)
  {
    var r := Obey(s, captured, products, cmd);
    match cmd
    case AddNamed(name) =>
      if FindByName(products, name).Some? {
        ScanIntoSpec(captured, FindByName(products, name).value);
      }
    case RemoveNamed(name) =>
      if FindByName(captured, name).Some? {
        RemoveLineSpec(captured, FindByName(captured, name).value.id);
      }
    case CheckoutCmd =>
    case Unrecognised =>
  }

  // ---------------------------------------------------------------------------
  // The register
  // ---------------------------------------------------------------------------

  class Register {
    /** The product catalogue and the customer list the register sells from. */
    const products: seq<Product>
    const customers: seq<Customer>
    var cart: seq<Product>
    var scannedCode: string
    var customerName: string
    var discount: int
    var lastScanned: Option<Product>
    var isScanning: bool
    var selectedCustomer: Option<Customer>
    var giftWrap: bool
    var notifications: seq<string>
    var language: string
    /**
     * The cart as it was when the speech listener was last installed (at
     * start-up and on every language change): the listener's handler keeps
     * the values of that moment.
     */
    var speechCart: seq<Product>

    predicate Valid()
      reads this
    {
      DistinctIds(products) && CartValid(cart) && CartValid(speechCart)
    }

    /** The fields a voice command can change, as one value. */
    function Sale(): SaleState
      reads this
    {
      SaleState(cart, lastScanned, notifications, scannedCode, isScanning, customerName, discount,
                selectedCustomer, giftWrap)
    }

    constructor ()
      ensures Valid() && products == Catalogue && customers == Customers
      ensures cart == [] && speechCart == [] && notifications == []
      ensures scannedCode == "" && customerName == "" && discount == 0 && lastScanned == None
      ensures !isScanning && selectedCustomer == None && !giftWrap && language == "en"
    {
      products, customers := Catalogue, Customers;
      CatalogueIdsDistinct();
      cart, speechCart, notifications := [], [], [];
      scannedCode, customerName, discount, lastScanned := "", "", 0, None;
      isScanning, selectedCustomer, giftWrap := false, None, false;
      language := "en";
    }

    /** `addNotification`: the message is appended (its timed removal is `ExpireNotification`). */
    method AddNotification(message: string)
      modifies this`notifications
      ensures notifications == old(notifications) + [message]
    {
      notifications := notifications + [message];
    }

    /** The removal timer of a notification: every notification with that text goes. */
    method ExpireNotification(message: string)
      modifies this`notifications
      ensures notifications == Filter(old(notifications), (n: string) => n != message)
      ensures forall i :: 0 <= i < |notifications| ==> notifications[i] != message
    {
      notifications := Filter(notifications, (n: string) => n != message);
    }

    /**
     * `addProduct(code)` once its timer fires, with `base` the cart the
     * handler captured: a found product is scanned into `base`, becomes the
     * last scanned product and is announced; the code field is cleared and
     * scanning ends either way.
     */
    method ScanOnto(base: seq<Product>, code: string)
      requires Valid() && CartValid(base)
      modifies this`cart, this`lastScanned, this`notifications, this`scannedCode, this`isScanning
      ensures Valid()
      ensures var found := FindProduct(products, code);
        && (found.Some? ==>
              && cart == ScanInto(base, found.value)
              && Qty(cart, code) == Qty(base, code) + 1
              && lastScanned == Some(found.value)
              && notifications == old(notifications) + [found.value.name + " added to cart"])
        && (found.None? ==>
              cart == old(cart) && lastScanned == old(lastScanned) && notifications == old(notifications))
      ensures scannedCode == "" && !isScanning
    {
      isScanning := true;
      var found := FindProduct(products, code);
      if found.Some? {
        var p := found.value;
        assert p.id == code;
        ScanIntoKeepsCart(base, p);
        cart := ScanInto(base, p);
        lastScanned := Some(p);
        AddNotification(p.name + " added to cart");
      }
      scannedCode := "";
      isScanning := false;
    }

    /** The scan button and the recommendation buttons: `addProduct(code)` on the current cart. */
    method AddProduct(code: string)
      requires Valid()
      modifies this`cart, this`lastScanned, this`notifications, this`scannedCode, this`isScanning
      ensures Valid()
      ensures var found := FindProduct(products, code);
        && (found.Some? ==> cart == ScanInto(old(cart), found.value) && Qty(cart, code) == Qty(old(cart), code) + 1
                            && lastScanned == Some(found.value)
                            && notifications == old(notifications) + [found.value.name + " added to cart"])
        && (found.None? ==> cart == old(cart) && lastScanned == old(lastScanned) && notifications == old(notifications))
      ensures scannedCode == "" && !isScanning
    {
      ScanOnto(cart, code);
    }

    /** The minus and plus buttons of a cart line. */
    method UpdateQuantityClicked(id: string, change: int)
      requires Valid()
      modifies this`cart
      ensures Valid() && cart == UpdateQuantity(old(cart), id, change)
    {
      UpdateQuantitySpec(cart, id, change);
      cart := UpdateQuantity(cart, id, change);
    }

    /** `removeProduct(id)` with `base` the cart the handler captured. */
    method RemoveFrom(base: seq<Product>, id: string)
      requires Valid() && CartValid(base)
      modifies this`cart, this`notifications
      ensures Valid()
      ensures var found := Find(base, (l: Product) => l.id == id);
        && (found.Some? ==> cart == RemoveLine(base, id) && !InCart(cart, id)
                            && notifications == old(notifications) + [found.value.name + " removed from cart"])
        && (found.None? ==> cart == old(cart) && notifications == old(notifications))
    {
      var found := Find(base, (l: Product) => l.id == id);
      if found.Some? {
        RemoveLineSpec(base, id);
        cart := RemoveLine(base, id);
        AddNotification(found.value.name + " removed from cart");
      }
    }

    /** The trash button of a cart line. */
    method RemoveProduct(id: string)
      requires Valid()
      modifies this`cart, this`notifications
      ensures Valid()
      ensures var found := Find(old(cart), (l: Product) => l.id == id);
        && (found.Some? ==> cart == RemoveLine(old(cart), id) && !InCart(cart, id)
                            && notifications == old(notifications) + [found.value.name + " removed from cart"])
        && (found.None? ==> cart == old(cart) && notifications == old(notifications))
    {
      RemoveFrom(cart, id);
    }

    /** `handleCheckout` without its total and alerts: the sale state is reset and the checkout announced. */
    method Checkout()
      requires Valid()
      modifies this`cart, this`customerName, this`discount, this`lastScanned, this`selectedCustomer,
               this`giftWrap, this`notifications
      ensures Valid() && cart == [] && customerName == "" && discount == 0 && lastScanned == None
      ensures selectedCustomer == None && !giftWrap
      ensures notifications == old(notifications) + ["Checkout completed successfully"]
    {
      cart, customerName, discount, lastScanned := [], "", 0, None;
      selectedCustomer, giftWrap := None, false;
      AddNotification("Checkout completed successfully");
    }

    /** The customer selector: `customers.find(c => c.id === value) || null`. */
    method SelectCustomer(value: string)
      modifies this`selectedCustomer
      ensures selectedCustomer == Find(customers, (c: Customer) => c.id == value)
    {
      selectedCustomer := Find(customers, (c: Customer) => c.id == value);
    }

    /** Changing the language re-installs the speech listener, which captures the current cart. */
    method SetLanguage(lang: string)
      requires Valid()
      modifies this`language, this`speechCart
      ensures Valid() && language == lang && speechCart == cart
    {
      language := lang;
      speechCart := cart;
    }

    /**
     * `handleSpeechResult` on the last transcript. Adding and removing work on
     * the cart the listener captured (`speechCart`), not on the current one.
     */
    method HandleSpeech(transcript: string)
      requires Valid()
      modifies this`cart, this`lastScanned, this`notifications, this`scannedCode, this`isScanning,
               this`customerName, this`discount, this`selectedCustomer, this`giftWrap
      ensures Valid()
      ensures Sale() == Obey(old(Sale()), old(speechCart), products, ParseSpeech(transcript))
    {
      match ParseSpeech(transcript)
      case AddNamed(name) =>
        SpeechAdd(name);
      case RemoveNamed(name) =>
        SpeechRemove(name);
      case CheckoutCmd =>
        ghost var before := Sale();
        Checkout();
        assert Sale() == Obey(before, speechCart, products, CheckoutCmd);
      case Unrecognised =>
    }

    /** The add branch of `handleSpeechResult`: the product named is scanned onto the captured cart. */
    method SpeechAdd(name: string)
      requires Valid()
      modifies this`cart, this`lastScanned, this`notifications, this`scannedCode, this`isScanning
      ensures Valid()
      ensures Sale() == Obey(old(Sale()), old(speechCart), products, AddNamed(name))
      ensures var found := FindByName(products, name);
        && (found.Some? ==>
              && cart == ScanInto(old(speechCart), found.value) && lastScanned == Some(found.value)
              && notifications == old(notifications) + [found.value.name + " added to cart"]
              && scannedCode == "" && !isScanning)
        && (found.None? ==>
              && cart == old(cart) && lastScanned == old(lastScanned) && notifications == old(notifications)
              && scannedCode == old(scannedCode) && isScanning == old(isScanning))
    {
      var found := FindByName(products, name);
      if found.Some? {
        var p := found.value;
        FindProductByCode(products);
        assert FindProduct(products, p.id) == Some(p) by {
          var i :| 0 <= i < |products| && products[i] == p;
        }
        ScanOnto(speechCart, p.id);
      }
    }

    /** The remove branch of `handleSpeechResult`: the captured cart's line named is removed. */
    method SpeechRemove(name: string)
      requires Valid()
      modifies this`cart, this`notifications
      ensures Valid()
      ensures Sale() == Obey(old(Sale()), old(speechCart), products, RemoveNamed(name))
      ensures var found := FindByName(old(speechCart), name);
        && (found.Some? ==>
              && cart == RemoveLine(old(speechCart), found.value.id) && !InCart(cart, found.value.id)
              && notifications == old(notifications) + [found.value.name + " removed from cart"])
        && (found.None? ==> cart == old(cart) && notifications == old(notifications))
    {
      var found := FindByName(speechCart, name);
      if found.Some? {
        var l := found.value;
        var i :| 0 <= i < |speechCart| && speechCart[i] == l;
        FindFirstMatch(speechCart, (x: Product) => x.id == l.id, i);
        RemoveFrom(speechCart, l.id);
      }
    }
  }

  /**
   * Because the listener keeps the cart it captured, a voice "add" after a
   * product was added by hand (with no language change in between) replaces
   * the cart with the captured one plus the spoken product. On a register
   * whose listener captured the empty cart, as at start-up: the hand-added
   * line is in the cart (`manual`), and after the voice add the cart holds
   * the spoken product alone.
   */
  method VoiceAddForgetsNewerLines(register: Register, code: string, transcript: string) returns (manual: seq<Product>)
    requires register.Valid() && register.cart == [] && register.speechCart == []
    requires ParseSpeech(transcript).AddNamed? && FindByName(register.products, ParseSpeech(transcript).name).Some?
    modifies register
    ensures FindProduct(register.products, code).Some? ==> InCart(manual, code)
    ensures var spoken := FindByName(register.products, ParseSpeech(transcript).name).value;
      && register.cart == [spoken.(quantity := 1)]
      && (code != spoken.id ==> !InCart(register.cart, code))
  {
    manual := AddByHand(register, code);
    ghost var name := ParseSpeech(transcript).name;
    ghost var before := register.Sale();
    register.HandleSpeech(transcript);
    VoiceAddOnEmptyCapture(before, register.products, name);
  }

  /** The scan button on a register whose listener captured the empty cart: the product is in the cart. */
  method AddByHand(register: Register, code: string) returns (manual: seq<Product>)
    requires register.Valid() && register.cart == [] && register.speechCart == []
    modifies register`cart, register`lastScanned, register`notifications, register`scannedCode, register`isScanning
    ensures register.Valid() && register.speechCart == [] && manual == register.cart
    ensures FindProduct(register.products, code).Some? ==> InCart(manual, code)
  {
    register.AddProduct(code);
    manual := register.cart;
    if FindProduct(register.products, code).Some? {
      CountedIsInCart(manual, code);
    }
  }

  /** A spoken "add" of a catalogue product, obeyed on the empty captured cart, leaves that product alone. */
  lemma VoiceAddOnEmptyCapture(s: SaleState, products: seq<Product>, name: string)
    requires FindByName(products, name).Some?
    ensures var spoken := FindByName(products, name).value;
      && Obey(s, [], products, AddNamed(name)).cart == [spoken.(quantity := 1)]
      && forall id :: id != spoken.id ==> !InCart(Obey(s, [], products, AddNamed(name)).cart, id)
  {
    ScanIntoEmpty(FindByName(products, name).value);
  }

  lemma CountedIsInCart(cart: seq<Product>, id: string)
    requires Qty(cart, id) != 0
    ensures InCart(cart, id)
  {
    if !InCart(cart, id) {
      QtyAbsent(cart, id);
    }
  }

  /** Scanning into the empty cart gives the one-line cart of that product. */
  lemma ScanIntoEmpty(p: Product)
    ensures ScanInto([], p) == [p.(quantity := 1)]
    ensures forall id :: id != p.id ==> !InCart(ScanInto([], p), id)
  {
  }
}
