/**
 * Simulated attribution at checkout: every cart line receives one
 * synthesised voucher code, shown masked, and becomes a wallet entry.
 *
 * Randomness and the clock are inputs here: `digits` stands for the
 * fractional base-36 digits of a random number (what
 * `Math.random().toString(36).slice(2)` yields), `ids` for the entry ids
 * built from the clock and a random number, and `now` for the ISO
 * timestamp taken once per checkout.
 */
module Attribution {
  import opened CartManager

  /** A voucher held in the wallet. */
  datatype WalletEntry = WalletEntry(
    id: string,
    brand: string,
    amount: int,
    maskedCode: string,
    fullCode: string,
    createdAt: string)

  /** The fixed masking prefix `••••-••••-••••-`. */
  const MaskPrefix: string :=
    "\U{2022}\U{2022}\U{2022}\U{2022}-\U{2022}\U{2022}\U{2022}\U{2022}-\U{2022}\U{2022}\U{2022}\U{2022}-"

  /** The prefix of every synthesised code. */
  const SimPrefix: string := "SIM-"

  function Min(a: int, b: int): int { if a <= b then a else b }

  /**
   * `s.slice(-n)` for a positive `n`: the last `n` characters of `s`, or
   * all of `s` when it is shorter.
   */
  function Last(s: string, n: nat): (r: string)
    requires n > 0
    ensures |r| == Min(n, |s|)
    ensures r == s[|s| - |r|..]
  {
    if |s| <= n then s else s[|s| - n..]
  }

  /** The code as displayed: the masking prefix, then the code's last four characters. */
  function Mask(code: string): (m: string)
    ensures |m| == |MaskPrefix| + Min(4, |code|)
    ensures m[..|MaskPrefix|] == MaskPrefix
    ensures m[|MaskPrefix|..] == code[|code| - Min(4, |code|)..]
  {
    MaskPrefix + Last(code, 4)
  }

  /**
   * Masking depends on the last four characters only, and on all of
   * them: two codes mask alike exactly when their last four characters
   * agree.
   */
  lemma MaskSameSuffix(a: string, b: string)
    ensures Mask(a) == Mask(b) <==> Last(a, 4) == Last(b, 4)
  {
  }

  /** A code of at least four characters keeps exactly its last four, after 15 masking characters. */
  lemma MaskKeepsLastFour(code: string)
    requires |code| >= 4
    ensures |MaskPrefix| == 15
    ensures |Mask(code)| == 19
    ensures Mask(code)[15..] == code[|code| - 4..]
    ensures forall k :: 0 <= k < 15 ==> Mask(code)[k] in {'\U{2022}', '-'}
  {
  }

  /** What `Math.random().toString(36).slice(2)` can yield: lower-case base-36 digits. */
  predicate IsBase36(digits: string)
  {
    forall k :: 0 <= k < |digits| ==> ('0' <= digits[k] <= '9' || 'a' <= digits[k] <= 'z')
  }

  predicate IsUpperBase36(s: string)
  {
    forall k :: 0 <= k < |s| ==> ('0' <= s[k] <= '9' || 'A' <= s[k] <= 'Z')
  }

  /** `toUpperCase` on one character, for the ASCII letters the codes use. */
  function UpperChar(c: char): char
  {
    if 'a' <= c <= 'z' then (c as int - 'a' as int + 'A' as int) as char else c
  }

  /** `toUpperCase` on an ASCII text: each letter upper-cased, nothing else changed. */
  function ToUpper(s: string): (r: string)
    ensures |r| == |s|
    ensures forall k :: 0 <= k < |s| ==> r[k] == UpperChar(s[k])
  {
    if s == [] then [] else [UpperChar(s[0])] + ToUpper(s[1..])
  }

  /** The code synthesised for one cart line. */
  function SimCode(digits: string): (code: string)
    requires IsBase36(digits)
    ensures |code| == |SimPrefix| + |digits|
    ensures code[..|SimPrefix|] == SimPrefix
    ensures IsUpperBase36(code[|SimPrefix|..])
    ensures forall k :: 0 <= k < |digits| ==> code[|SimPrefix| + k] == UpperChar(digits[k])
  {
    SimPrefix + ToUpper(digits)
  }

  /** One wallet entry per cart line, in cart order, all stamped with `now`. */
  function NewEntries(cart: seq<CartLine>, digits: seq<string>, ids: seq<string>, now: string): (entries: seq<WalletEntry>)
    requires |digits| == |cart| && |ids| == |cart|
    requires forall k :: 0 <= k < |digits| ==> IsBase36(digits[k])
    ensures |entries| == |cart|
    ensures forall k :: 0 <= k < |cart| ==>
      && entries[k].id == ids[k]
      && entries[k].brand == cart[k].brand
      && entries[k].amount == cart[k].amount
      && entries[k].fullCode == SimCode(digits[k])
      && entries[k].maskedCode == Mask(entries[k].fullCode)
      && entries[k].createdAt == now
  {
    if cart == [] then []
    else
      var code := SimCode(digits[0]);
      [WalletEntry(ids[0], cart[0].brand, cart[0].amount, Mask(code), code, now)]
        + NewEntries(cart[1..], digits[1..], ids[1..], now)
  }

  /** Every entry's masked code is the masking of its full code. */
  predicate MaskedConsistently(wallet: seq<WalletEntry>)
  {
    forall k :: 0 <= k < |wallet| ==> wallet[k].maskedCode == Mask(wallet[k].fullCode)
  }

  /** Every entry holds a synthesised code. */
  predicate Simulated(wallet: seq<WalletEntry>)
  {
    forall k :: 0 <= k < |wallet| ==>
      |wallet[k].fullCode| >= |SimPrefix| && wallet[k].fullCode[..|SimPrefix|] == SimPrefix
  }

  /**
   * Prepending a checkout's entries keeps every entry's masking
   * consistent and every code synthesised, and the display of each new
   * entry ends in the last four characters of its code.
   */
  lemma PrependKeepsCodes(cart: seq<CartLine>, digits: seq<string>, ids: seq<string>, now: string, wallet: seq<WalletEntry>)
    requires |digits| == |cart| && |ids| == |cart|
    requires forall k :: 0 <= k < |digits| ==> IsBase36(digits[k])
    requires MaskedConsistently(wallet) && Simulated(wallet)
    ensures MaskedConsistently(NewEntries(cart, digits, ids, now) + wallet)
    ensures Simulated(NewEntries(cart, digits, ids, now) + wallet)
    ensures forall k :: 0 <= k < |cart| ==>
      var e := NewEntries(cart, digits, ids, now)[k];
      e.maskedCode[15..] == e.fullCode[|e.fullCode| - 4..]
  {
    var n := NewEntries(cart, digits, ids, now);
    var w := n + wallet;
    forall k | 0 <= k < |w|
      ensures w[k].maskedCode == Mask(w[k].fullCode)
      ensures |w[k].fullCode| >= |SimPrefix| && w[k].fullCode[..|SimPrefix|] == SimPrefix
    {
      if k >= |n| {
        assert w[k] == wallet[k - |n|];
      }
    }
    forall k | 0 <= k < |cart|
      ensures n[k].maskedCode[15..] == n[k].fullCode[|n[k].fullCode| - 4..]
    {
      MaskKeepsLastFour(n[k].fullCode);
    }
  }

  /**
   * Attribution is per line, not per unit: when every line holds at least
   * one item, the entries created never outnumber the items bought, and
   * they match them exactly when every line holds a single item.
   */
  lemma EntriesPerLine(cart: seq<CartLine>, digits: seq<string>, ids: seq<string>, now: string)
    requires |digits| == |cart| && |ids| == |cart|
    requires forall k :: 0 <= k < |digits| ==> IsBase36(digits[k])
    requires forall k :: 0 <= k < |cart| ==> cart[k].qty >= 1
    ensures |NewEntries(cart, digits, ids, now)| <= ItemCount(cart)
    ensures |NewEntries(cart, digits, ids, now)| == ItemCount(cart) <==>
      forall k :: 0 <= k < |cart| ==> cart[k].qty == 1
  {
    LinesAtMostItems(cart);
  }
}
