/**
 * The cart bookkeeping of the storefront page: the catalogue, the cart
 * lines, the merge-or-append update run when a product is added, and the
 * two reductions over the cart (the price total and the item count).
 */
module CartManager {

  /** A catalogue entry; `priceOptions` are the face values offered. */
  datatype Product = Product(id: string, brand: string, description: string, priceOptions: seq<int>)

  /** One cart line. Its key is the pair (`id`, `amount`). */
  datatype CartLine = CartLine(id: string, brand: string, amount: int, unitPrice: int, qty: int)

  /** One press of a product's add button: the product and the face value chosen. */
  datatype Pick = Pick(id: string, brand: string, amount: int)

  /** The fixed catalogue. */
  const Products: seq<Product> := [
    Product("apple-ci", "Apple \U{2022} CI", "Cartes Apple (App Store, musique\U{2026})", [10000, 25000, 50000]),
    Product("psn-ci", "PSN \U{2022} CI", "PlayStation Store : jeux, addons, PS Plus.", [10000, 20000, 40000]),
    Product("gplay-ci", "Google Play \U{2022} CI", "Apps et contenus Google Play.", [10000, 15000, 30000])
  ]

  /** The catalogue's ids are distinct and every product offers a face value. */
  lemma CatalogueShape()
    ensures DistinctIds(Products)
    ensures forall k :: 0 <= k < |Products| ==> |Products[k].priceOptions| > 0
  {
  }

  // ---------------------------------------------------------------------------
  // Choosing the amount

  /**
   * The amount added for `p`: the face value selected for it, unless none
   * is selected or the selection is 0 (falsy), in which case its first
   * face value.
   */
  function ChosenAmount(selected: map<string, int>, p: Product): (amount: int)
    requires |p.priceOptions| > 0
    ensures p.id in selected && selected[p.id] != 0 ==> amount == selected[p.id]
    ensures p.id !in selected || selected[p.id] == 0 ==> amount == p.priceOptions[0]
  {
    if p.id in selected && selected[p.id] != 0 then selected[p.id] else p.priceOptions[0]
  }

  /** Every selection recorded is one of that product's face values. */
  ghost predicate SelectionsOffered(selected: map<string, int>)
  {
    forall pid :: pid in selected ==>
      exists k :: 0 <= k < |Products| && Products[k].id == pid && selected[pid] in Products[k].priceOptions
  }

  /** Catalogue products have distinct ids. */
  predicate DistinctIds(products: seq<Product>)
  {
    forall j, k :: 0 <= j < k < |products| ==> products[j].id != products[k].id
  }

  /**
   * When selections come only from the drop-downs, the amount added for a
   * catalogue product is always one of its own face values.
   */
  lemma ChosenAmountOffered(selected: map<string, int>, k: nat)
    requires k < |Products|
    requires SelectionsOffered(selected)
    ensures ChosenAmount(selected, Products[k]) in Products[k].priceOptions
  {
  }

  // ---------------------------------------------------------------------------
  // Finding and merging lines

  predicate Matches(line: CartLine, id: string, amount: int)
  {
    line.id == id && line.amount == amount
  }

  /** Some line of `cart` has the key (`id`, `amount`). */
  predicate HasKey(cart: seq<CartLine>, id: string, amount: int)
  {
    exists k :: 0 <= k < |cart| && Matches(cart[k], id, amount)
  }

  /** `findIndex` on the key: the first matching index, or -1 when none matches. */
  function FindLine(cart: seq<CartLine>, id: string, amount: int): (i: int)
    ensures -1 <= i < |cart|
    ensures i == -1 <==> !HasKey(cart, id, amount)
    ensures i != -1 ==> Matches(cart[i], id, amount)
    ensures forall k :: 0 <= k < i ==> !Matches(cart[k], id, amount)
  {
    if |cart| == 0 then -1
    else if Matches(cart[0], id, amount) then 0
    else
      var j := FindLine(cart[1..], id, amount);
      assert forall k :: 0 < k < |cart| ==> cart[k] == cart[1..][k - 1];
      if j == -1 then -1 else j + 1
  }

  /**
   * The cart update of the add button: when a line with the key exists
   * its quantity goes up by one and nothing else changes; otherwise a new
   * line priced at the face value, with quantity 1, is appended.
   */
  function AddLine(cart: seq<CartLine>, id: string, brand: string, amount: int): (r: seq<CartLine>)
    ensures HasKey(cart, id, amount) <==> |r| == |cart|
    ensures HasKey(cart, id, amount) ==>
      var i := FindLine(cart, id, amount);
      && r[i] == cart[i].(qty := cart[i].qty + 1)
      && forall k :: 0 <= k < |cart| && k != i ==> r[k] == cart[k]
    ensures !HasKey(cart, id, amount) ==>
      && |r| == |cart| + 1
      && r[..|cart|] == cart
      && r[|cart|] == CartLine(id, brand, amount, amount, 1)
  {
    var i := FindLine(cart, id, amount);
    if i != -1 then cart[i := cart[i].(qty := cart[i].qty + 1)]
    else cart + [CartLine(id, brand, amount, amount, 1)]
  }

  /** Quantity held under the key: that of the first matching line, or 0. */
  function QtyOf(cart: seq<CartLine>, id: string, amount: int): int
  {
    var i := FindLine(cart, id, amount);
    if i == -1 then 0 else cart[i].qty
  }

  /** At most one line per key. */
  predicate Unique(cart: seq<CartLine>)
  {
    forall j, k :: 0 <= j < k < |cart| ==> !Matches(cart[j], cart[k].id, cart[k].amount)
  }

  /** Every line is priced at its face value. */
  predicate PricedAtFace(cart: seq<CartLine>)
  {
    forall k :: 0 <= k < |cart| ==> cart[k].unitPrice == cart[k].amount
  }

  /** The shape every cart built by the add button has. */
  predicate WellFormed(cart: seq<CartLine>)
  {
    && Unique(cart)
    && PricedAtFace(cart)
    && forall k :: 0 <= k < |cart| ==> cart[k].qty >= 1
  }

  /** Adding keeps a well-formed cart well-formed: still one line per key. */
  lemma AddLineWellFormed(cart: seq<CartLine>, id: string, brand: string, amount: int)
    requires WellFormed(cart)
    ensures WellFormed(AddLine(cart, id, brand, amount))
  {
  }

  lemma FindLineAppend(cart: seq<CartLine>, line: CartLine, id: string, amount: int)
    ensures FindLine(cart + [line], id, amount) ==
      if HasKey(cart, id, amount) then FindLine(cart, id, amount)
      else if Matches(line, id, amount) then |cart|
      else -1
  {
    var c := cart + [line];
    assert forall k :: 0 <= k < |cart| ==> c[k] == cart[k];
    assert c[|cart|] == line;
    assert HasKey(cart, id, amount) ==> HasKey(c, id, amount);
  }

  /**
   * An add raises the quantity held under its own key by exactly one and
   * leaves the quantity held under every other key as it was.
   */
  lemma AddLineQty(cart: seq<CartLine>, id: string, brand: string, amount: int, id': string, amount': int)
    ensures QtyOf(AddLine(cart, id, brand, amount), id', amount') ==
      QtyOf(cart, id', amount') + (if id == id' && amount == amount' then 1 else 0)
  {
  }

  // ---------------------------------------------------------------------------
  // Reductions

  /** `reduce((s, it) => s + f(it), 0)`, left to right. */
  function Sum(cart: seq<CartLine>, f: CartLine -> int): (s: int)
    ensures cart == [] ==> s == 0
    ensures (forall k :: 0 <= k < |cart| ==> f(cart[k]) >= 0) ==> s >= 0
  {
    if cart == [] then 0 else Sum(cart[..|cart| - 1], f) + f(cart[|cart| - 1])
  }

  function LineTotal(line: CartLine): int { line.unitPrice * line.qty }

  function LineQty(line: CartLine): int { line.qty }

  /**
   * The price total of the cart, `Σ unitPrice*qty`: what the drawer and the
   * order summary show and what payment is asked for. It is 0 for the
   * empty cart, the subtotal of the only line for a one-line cart, and
   * never negative when no price or quantity is.
   */
  function Total(cart: seq<CartLine>): (t: int)
    ensures cart == [] ==> t == 0
    ensures |cart| == 1 ==> t == cart[0].unitPrice * cart[0].qty
    ensures (forall k :: 0 <= k < |cart| ==> cart[k].unitPrice >= 0 && cart[k].qty >= 0) ==> t >= 0
  {
    assert |cart| == 1 ==> cart[..0] == [];
    Sum(cart, LineTotal)
  }

  /**
   * The number of items shown on the header badge, `Σ qty`: 0 for the
   * empty cart, the quantity of the only line for a one-line cart, and
   * never negative when no quantity is.
   */
  function ItemCount(cart: seq<CartLine>): (n: int)
    ensures cart == [] ==> n == 0
    ensures |cart| == 1 ==> n == cart[0].qty
    ensures (forall k :: 0 <= k < |cart| ==> cart[k].qty >= 0) ==> n >= 0
  {
    assert |cart| == 1 ==> cart[..0] == [];
    Sum(cart, LineQty)
  }

  lemma {:induction false} SumAppend(a: seq<CartLine>, b: seq<CartLine>, f: CartLine -> int)
    ensures Sum(a + b, f) == Sum(a, f) + Sum(b, f)
  {
    if b == [] {
      assert a + b == a;
    } else {
      var b' := b[..|b| - 1];
      assert (a + b)[..|a + b| - 1] == a + b';
      SumAppend(a, b', f);
    }
  }

  /** Replacing one line changes the sum by exactly the difference of that line's terms. */
  lemma {:induction false} SumUpdate(cart: seq<CartLine>, i: nat, line: CartLine, f: CartLine -> int)
    requires i < |cart|
    ensures Sum(cart[i := line], f) == Sum(cart, f) - f(cart[i]) + f(line)
  {
    var n := |cart|;
    if i < n - 1 {
      assert cart[i := line][..n - 1] == cart[..n - 1][i := line];
      SumUpdate(cart[..n - 1], i, line, f);
    } else {
      assert cart[i := line][..n - 1] == cart[..n - 1];
    }
  }

  /** Items on the badge are never fewer than the lines when every line holds at least one. */
  lemma {:induction false} LinesAtMostItems(cart: seq<CartLine>)
    requires forall k :: 0 <= k < |cart| ==> cart[k].qty >= 1
    ensures |cart| <= ItemCount(cart)
    ensures |cart| == ItemCount(cart) <==> forall k :: 0 <= k < |cart| ==> cart[k].qty == 1
  {
    if cart != [] {
      var c := cart[..|cart| - 1];
      LinesAtMostItems(c);
      assert forall k :: 0 <= k < |c| ==> c[k] == cart[k];
    }
  }

  lemma MulStep(price: int, qty: int)
    ensures price * (qty + 1) == price * qty + price
  {
  }

  /** On a cart priced at face value, each add raises the total by the face value added. */
  lemma AddLineTotal(cart: seq<CartLine>, id: string, brand: string, amount: int)
    requires PricedAtFace(cart)
    ensures Total(AddLine(cart, id, brand, amount)) == Total(cart) + amount
  {
    var line := CartLine(id, brand, amount, amount, 1);
    if HasKey(cart, id, amount) {
      var i := FindLine(cart, id, amount);
      var merged := cart[i].(qty := cart[i].qty + 1);
      SumUpdate(cart, i, merged, LineTotal);
      assert LineTotal(merged) == LineTotal(cart[i]) + cart[i].unitPrice by {
        MulStep(cart[i].unitPrice, cart[i].qty);
      }
    } else {
      assert AddLine(cart, id, brand, amount) == cart + [line];
      SumAppend(cart, [line], LineTotal);
      assert Sum([line], LineTotal) == LineTotal(line) by {
        assert [line][..0] == [];
      }
    }
  }

  /** On any cart, each add raises the item count by exactly one. */
  lemma AddLineCount(cart: seq<CartLine>, id: string, brand: string, amount: int)
    ensures ItemCount(AddLine(cart, id, brand, amount)) == ItemCount(cart) + 1
  {
    var line := CartLine(id, brand, amount, amount, 1);
    if HasKey(cart, id, amount) {
      var i := FindLine(cart, id, amount);
      SumUpdate(cart, i, cart[i].(qty := cart[i].qty + 1), LineQty);
    } else {
      assert AddLine(cart, id, brand, amount) == cart + [line];
      SumAppend(cart, [line], LineQty);
      assert [line][..0] == [];
    }
  }

  // ---------------------------------------------------------------------------
  // Many adds

  /** The cart after the adds `picks`, made in order. */
  function AddAll(cart: seq<CartLine>, picks: seq<Pick>): seq<CartLine>
    decreases picks
  {
    if picks == [] then cart
    else AddAll(AddLine(cart, picks[0].id, picks[0].brand, picks[0].amount), picks[1..])
  }

  /** How many of `picks` have the key (`id`, `amount`). */
  function Count(picks: seq<Pick>, id: string, amount: int): nat
  {
    if picks == [] then 0
    else (if picks[0].id == id && picks[0].amount == amount then 1 else 0) + Count(picks[1..], id, amount)
  }

  /** The face values of `picks`, added up. */
  function PickedValue(picks: seq<Pick>): int
  {
    if picks == [] then 0 else picks[0].amount + PickedValue(picks[1..])
  }

  /** After any sequence of adds, the quantity under each key grew by the number of adds of it. */
  lemma {:induction false} AddAllQty(cart: seq<CartLine>, picks: seq<Pick>, id: string, amount: int)
    ensures QtyOf(AddAll(cart, picks), id, amount) == QtyOf(cart, id, amount) + Count(picks, id, amount)
    decreases picks
  {
    if picks != [] {
      var p := picks[0];
      AddLineQty(cart, p.id, p.brand, p.amount, id, amount);
      AddAllQty(AddLine(cart, p.id, p.brand, p.amount), picks[1..], id, amount);
    }
  }

  lemma {:induction false} AddAllWellFormed(cart: seq<CartLine>, picks: seq<Pick>)
    requires WellFormed(cart)
    ensures WellFormed(AddAll(cart, picks))
    decreases picks
  {
    if picks != [] {
      var p := picks[0];
      AddLineWellFormed(cart, p.id, p.brand, p.amount);
      AddAllWellFormed(AddLine(cart, p.id, p.brand, p.amount), picks[1..]);
    }
  }

  /** On a cart priced at face value, the total grows by the face values added. */
  lemma {:induction false} AddAllTotal(cart: seq<CartLine>, picks: seq<Pick>)
    requires PricedAtFace(cart)
    ensures Total(AddAll(cart, picks)) == Total(cart) + PickedValue(picks)
    decreases picks
  {
    if picks != [] {
      var p := picks[0];
      AddLineTotal(cart, p.id, p.brand, p.amount);
      AddLinePricedAtFace(cart, p.id, p.brand, p.amount);
      AddAllTotal(AddLine(cart, p.id, p.brand, p.amount), picks[1..]);
    }
  }

  /** On any cart, the item count grows by the number of adds. */
  lemma {:induction false} AddAllCount(cart: seq<CartLine>, picks: seq<Pick>)
    ensures ItemCount(AddAll(cart, picks)) == ItemCount(cart) + |picks|
    decreases picks
  {
    if picks != [] {
      var p := picks[0];
      AddLineCount(cart, p.id, p.brand, p.amount);
      AddAllCount(AddLine(cart, p.id, p.brand, p.amount), picks[1..]);
    }
  }

  lemma AddLinePricedAtFace(cart: seq<CartLine>, id: string, brand: string, amount: int)
    requires PricedAtFace(cart)
    ensures PricedAtFace(AddLine(cart, id, brand, amount))
  {
  }

  /**
   * Starting from the empty cart, any sequence of adds gives one line per
   * distinct key picked, whose quantity is the number of times it was
   * picked; the charged total is the sum of the face values picked and the
   * badge counts the picks.
   */
  lemma CartFromPicks(picks: seq<Pick>, id: string, amount: int)
    ensures WellFormed(AddAll([], picks))
    ensures QtyOf(AddAll([], picks), id, amount) == Count(picks, id, amount)
    ensures HasKey(AddAll([], picks), id, amount) <==> Count(picks, id, amount) > 0
    ensures Total(AddAll([], picks)) == PickedValue(picks)
    ensures ItemCount(AddAll([], picks)) == |picks|
  {
    var c := AddAll([], picks);
    AddAllWellFormed([], picks);
    AddAllQty([], picks, id, amount);
    AddAllTotal([], picks);
    AddAllCount([], picks);
    if HasKey(c, id, amount) {
      assert c[FindLine(c, id, amount)].qty >= 1;
    }
  }

  /** The same pair added n times to a cart without it: one new last line, with quantity n. */
  lemma {:induction false} AddRepeated(cart: seq<CartLine>, p: Pick, n: nat, picks: seq<Pick>)
    requires !HasKey(cart, p.id, p.amount)
    requires n >= 1 && |picks| == n
    requires forall k :: 0 <= k < n ==> picks[k] == p
    ensures AddAll(cart, picks) == cart + [CartLine(p.id, p.brand, p.amount, p.amount, n)]
  {
    AddRepeatedFrom(cart, p, 1, picks[1..]);
  }

  lemma {:induction false} AddRepeatedFrom(cart: seq<CartLine>, p: Pick, q: int, picks: seq<Pick>)
    requires !HasKey(cart, p.id, p.amount)
    requires forall k :: 0 <= k < |picks| ==> picks[k] == p
    ensures AddAll(cart + [CartLine(p.id, p.brand, p.amount, p.amount, q)], picks)
         == cart + [CartLine(p.id, p.brand, p.amount, p.amount, q + |picks|)]
    decreases picks
  {
    if picks != [] {
      var line := CartLine(p.id, p.brand, p.amount, p.amount, q);
      var c := cart + [line];
      var bumped := cart + [line.(qty := q + 1)];
      FindLineAppend(cart, line, p.id, p.amount);
      assert FindLine(c, p.id, p.amount) == |cart|;
      assert AddLine(c, p.id, p.brand, p.amount) == bumped by {
        assert c[|cart| := line.(qty := q + 1)] == bumped;
      }
      assert AddAll(c, picks) == AddAll(bumped, picks[1..]);
      AddRepeatedFrom(cart, p, q + 1, picks[1..]);
    }
  }
}
