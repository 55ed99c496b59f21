/**
 * The shop's state: the cart and the wallet, each a persisted-state cell
 * over the browser's storage, with the product selections and the current
 * route beside them. The storefront page and the checkout page each mount
 * their cells from the same storage; both are modelled by one object.
 */
module ShopState {
  import opened Storage
  import opened CartManager
  import opened Attribution

  /** The two documents kept in storage. */
  datatype Doc = CartDoc(lines: seq<CartLine>) | WalletDoc(entries: seq<WalletEntry>)

  const CartKey: string := "gc_demo_cart"
  const WalletKey: string := "gc_demo_wallet"

  /** Whatever document is stored under a key is of that key's kind. */
  predicate WellShaped(store: map<string, Raw<Doc>>)
  {
    && (CartKey in store && store[CartKey].Serialized? ==> store[CartKey].doc.CartDoc?)
    && (WalletKey in store && store[WalletKey].Serialized? ==> store[WalletKey].doc.WalletDoc?)
  }

  /** The cart a page mounts with: the stored cart, or the empty cart. */
  function LoadCart(store: map<string, Raw<Doc>>): (cart: seq<CartLine>)
    requires WellShaped(store)
    ensures CartKey in store && store[CartKey].Serialized? ==> CartDoc(cart) == store[CartKey].doc
    ensures CartKey !in store || !store[CartKey].Serialized? ==> cart == []
  {
    Load(store, CartKey, CartDoc([])).lines
  }

  /** The wallet a page mounts with: the stored wallet, or the empty wallet. */
  function LoadWallet(store: map<string, Raw<Doc>>): (wallet: seq<WalletEntry>)
    requires WellShaped(store)
    ensures WalletKey in store && store[WalletKey].Serialized? ==> WalletDoc(wallet) == store[WalletKey].doc
    ensures WalletKey !in store || !store[WalletKey].Serialized? ==> wallet == []
  {
    Load(store, WalletKey, WalletDoc([])).entries
  }

  class Shop {
    var cart: seq<CartLine>
    var wallet: seq<WalletEntry>
    /** The browser's storage, key by key. */
    var store: map<string, Raw<Doc>>
    /** Face value chosen per product id in the drop-downs (not persisted). */
    var selected: map<string, int>
    /** The current page. */
    var route: string

    /**
     * The cells are in step with the storage: a page mounted now would
     * load exactly the cart and the wallet held in memory.
     */
    ghost predicate Valid()
      reads this
    {
      && WellShaped(store)
      && cart == LoadCart(store)
      && wallet == LoadWallet(store)
    }

    /** A page mounts: both cells load from storage, falling back to empty documents. */
    constructor Mount(saved: map<string, Raw<Doc>>, path: string)
      requires WellShaped(saved)
      ensures Valid()
      ensures store == saved && route == path && selected == map[]
      ensures cart == LoadCart(saved) && wallet == LoadWallet(saved)
    {
      store := saved;
      cart := LoadCart(saved);
      wallet := LoadWallet(saved);
      selected := map[];
      route := path;
    }

    /** The cart setter: the new cart goes to memory and to storage. */
    method SetCart(v: seq<CartLine>)
      requires Valid()
      modifies this
      ensures Valid()
      ensures cart == v
      ensures store == Save(old(store), CartKey, CartDoc(v))
      ensures wallet == old(wallet) && selected == old(selected) && route == old(route)
    {
      cart := v;
      store := Save(store, CartKey, CartDoc(v));
      LoadAfterSave(old(store), CartKey, CartDoc(v), WalletKey, WalletDoc([]));
    }

    /** The wallet setter: the new wallet goes to memory and to storage. */
    method SetWallet(v: seq<WalletEntry>)
      requires Valid()
      modifies this
      ensures Valid()
      ensures wallet == v
      ensures store == Save(old(store), WalletKey, WalletDoc(v))
      ensures cart == old(cart) && selected == old(selected) && route == old(route)
    {
      wallet := v;
      store := Save(store, WalletKey, WalletDoc(v));
      LoadAfterSave(old(store), WalletKey, WalletDoc(v), CartKey, CartDoc([]));
    }

    /**
     * A face value is picked in a product's drop-down. When the value is
     * one of that catalogue product's options, every recorded selection
     * stays one the drop-downs offer.
     */
    method Select(productId: string, value: int)
      modifies this
      ensures selected == old(selected)[productId := value]
      ensures SelectionsOffered(old(selected))
        && (exists k :: 0 <= k < |Products| && Products[k].id == productId && value in Products[k].priceOptions)
        ==> SelectionsOffered(selected)
      ensures cart == old(cart) && wallet == old(wallet) && store == old(store) && route == old(route)
    {
      selected := selected[productId := value];
    }

    /**
     * The add button of product `p`: the chosen face value is merged into
     * the cart, which is written through. The badge rises by one; on a
     * cart priced at face value the total rises by the value added.
     */
    method AddToCart(p: Product)
      requires Valid()
      requires |p.priceOptions| > 0
      modifies this
      ensures Valid()
      ensures cart == AddLine(old(cart), p.id, p.brand, ChosenAmount(old(selected), p))
      ensures store == Save(old(store), CartKey, CartDoc(cart))
      ensures wallet == old(wallet) && selected == old(selected) && route == old(route)
      ensures PricedAtFace(old(cart)) ==> Total(cart) == old(Total(cart)) + ChosenAmount(selected, p)
      ensures ItemCount(cart) == old(ItemCount(cart)) + 1
      ensures WellFormed(old(cart)) ==> WellFormed(cart)
    {
      var amount := ChosenAmount(selected, p);
      var next := AddLine(cart, p.id, p.brand, amount);
      if PricedAtFace(cart) {
        AddLineTotal(cart, p.id, p.brand, amount);
      }
      AddLineCount(cart, p.id, p.brand, amount);
      if WellFormed(cart) {
        AddLineWellFormed(cart, p.id, p.brand, amount);
      }
      SetCart(next);
    }

    /**
     * Attribution after a successful payment. An empty cart changes
     * nothing. Otherwise the new entries, one per line in cart order, are
     * put in front of the wallet, which is written first; then the cart is
     * emptied and written.
     */
    method AttributeAndStore(digits: seq<string>, ids: seq<string>, now: string)
      requires Valid()
      requires |digits| == |cart| && |ids| == |cart|
      requires forall k :: 0 <= k < |digits| ==> IsBase36(digits[k])
      modifies this
      ensures Valid()
      ensures old(cart) == [] ==>
        cart == old(cart) && wallet == old(wallet) && store == old(store)
      ensures old(cart) != [] ==>
        && wallet == NewEntries(old(cart), digits, ids, now) + old(wallet)
        && cart == []
        && store == Save(Save(old(store), WalletKey, WalletDoc(wallet)), CartKey, CartDoc([]))
      ensures selected == old(selected) && route == old(route)
    {
      if |cart| == 0 {
        return;
      }
      var entries := NewEntries(cart, digits, ids, now);
      SetWallet(entries + wallet);
      SetCart([]);
    }

    /**
     * The payment provider reported success: attribution runs, then the
     * shopper is sent back to the storefront. The storefront mounts afresh:
     * its cells see the emptied cart and the grown wallet, and its
     * drop-downs start with nothing selected.
     */
    method HandleSuccess(digits: seq<string>, ids: seq<string>, now: string)
      requires Valid()
      requires |digits| == |cart| && |ids| == |cart|
      requires forall k :: 0 <= k < |digits| ==> IsBase36(digits[k])
      modifies this
      ensures Valid()
      ensures route == "/"
      ensures old(cart) == [] ==> cart == old(cart) && wallet == old(wallet) && store == old(store)
      ensures old(cart) != [] ==>
        && wallet == NewEntries(old(cart), digits, ids, now) + old(wallet)
        && cart == []
        && store == Save(Save(old(store), WalletKey, WalletDoc(wallet)), CartKey, CartDoc([]))
      ensures selected == map[]
    {
      AttributeAndStore(digits, ids, now);
      route := "/";
      selected := map[];
    }
  }
}
