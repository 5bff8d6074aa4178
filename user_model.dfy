/**
 * The user document of the storefront: its wishlist, cart and saved-for-later
 * lists with the instance methods that update them in place, and the
 * phone-number pattern the schema enforces.
 */
module UserModel {
  import opened Common

  /** A product reference; the source compares references through their string form. */
  type ProductId = string

  /** A `Date.now()` value. It is stored and never inspected. */
  type Timestamp = int

  datatype WishlistEntry = WishlistEntry(productId: ProductId, addedAt: Timestamp)

  datatype CartItem = CartItem(productId: ProductId, quantity: int, size: string, color: string, addedAt: Timestamp)

  /** What identifies a cart or saved-for-later entry. */
  datatype ItemKey = ItemKey(productId: ProductId, size: string, color: string)

  function KeyOf(item: CartItem): ItemKey
  {
    ItemKey(item.productId, item.size, item.color)
  }

  /**
   * The argument of updateCart and updateSavedForLater. A missing or NaN
   * quantity is written 0: like 0 it is falsy, and the guard treats them alike.
   */
  datatype CartRequest = CartRequest(productId: ProductId, quantity: int, size: string, color: string)

  function RequestKey(req: CartRequest): ItemKey
  {
    ItemKey(req.productId, req.size, req.color)
  }

  /**
   * The entry that a request pushes when its key is not in the list yet.
   * The schema's `trim: true` on size and color is a setter, so the pushed
   * entry holds them trimmed.
   */
  function NewItem(req: CartRequest, now: Timestamp): CartItem
  {
    CartItem(req.productId, req.quantity, Trim(req.size), Trim(req.color), now)
  }

  /** The key the pushed entry is stored under. */
  function StoredKey(req: CartRequest): ItemKey
  {
    ItemKey(req.productId, Trim(req.size), Trim(req.color))
  }

  /** A request whose size and color the setters leave as they are. */
  predicate RequestTrimmed(req: CartRequest)
  {
    IsTrimmed(req.size) && IsTrimmed(req.color)
  }

  /** Every entry's size and color are trimmed, as the setters leave them. */
  predicate AllTrimmed(items: seq<CartItem>)
  {
    forall i :: 0 <= i < |items| ==> IsTrimmed(items[i].size) && IsTrimmed(items[i].color)
  }

  datatype CartError = MissingRequiredFields

  /** The guard of both update methods: every field of the request is truthy. */
  predicate HasRequiredFields(req: CartRequest)
  {
    req.productId != "" && req.quantity != 0 && req.size != "" && req.color != ""
  }

  // ---------------------------------------------------------------- wishlist

  predicate InWishlist(ws: seq<WishlistEntry>, pid: ProductId)
  {
    exists i :: 0 <= i < |ws| && ws[i].productId == pid
  }

  /** At most one wishlist entry per product. */
  predicate UniqueWishlist(ws: seq<WishlistEntry>)
  {
    forall i, j :: 0 <= i < j < |ws| ==> ws[i].productId != ws[j].productId
  }

  /** i is what `findIndex` returns for pid: the position of the first entry for it. */
  predicate IsFirstWishlistIndex(ws: seq<WishlistEntry>, pid: ProductId, i: int)
  {
    0 <= i < |ws| && ws[i].productId == pid && forall j :: 0 <= j < i ==> ws[j].productId != pid
  }

  /** The wishlist with its first entry for pid taken out. */
  function WithoutFirst(ws: seq<WishlistEntry>, pid: ProductId): (r: seq<WishlistEntry>)
    ensures InWishlist(ws, pid) ==> |r| == |ws| - 1
  {
    if ws == [] then []
    else if ws[0].productId == pid then ws[1..]
    else [ws[0]] + WithoutFirst(ws[1..], pid)
  }

  /** The wishlist after toggleWishlist(pid) at time now. */
  function Toggled(ws: seq<WishlistEntry>, pid: ProductId, now: Timestamp): (r: seq<WishlistEntry>)
    ensures InWishlist(ws, pid) ==> |r| == |ws| - 1
    ensures !InWishlist(ws, pid) ==> |r| == |ws| + 1
    ensures !InWishlist(ws, pid) ==> InWishlist(r, pid)
  {
    if InWishlist(ws, pid) then WithoutFirst(ws, pid)
    else
      var r := ws + [WishlistEntry(pid, now)];
      assert r[|ws|].productId == pid;
      r
  }

  /** Taking out the first entry for pid is the splice at the index findIndex reports. */
  lemma {:induction false} WithoutFirstAt(ws: seq<WishlistEntry>, pid: ProductId, i: int)
    requires IsFirstWishlistIndex(ws, pid, i)
    ensures WithoutFirst(ws, pid) == ws[..i] + ws[i + 1..]
  {
    if i > 0 {
      WithoutFirstAt(ws[1..], pid, i - 1);
      assert ws[1..][..i - 1] == ws[1..i];
      assert ws[1..][i..] == ws[i + 1..];
      assert [ws[0]] + ws[1..i] == ws[..i];
    }
  }

  /** What toggleWishlist does: append when absent, otherwise splice out the first entry. */
  lemma ToggleBehaviour(ws: seq<WishlistEntry>, pid: ProductId, now: Timestamp)
    ensures !InWishlist(ws, pid) ==> Toggled(ws, pid, now) == ws + [WishlistEntry(pid, now)]
    ensures forall i :: IsFirstWishlistIndex(ws, pid, i) ==> Toggled(ws, pid, now) == ws[..i] + ws[i + 1..]
  {
    forall i | IsFirstWishlistIndex(ws, pid, i)
      ensures Toggled(ws, pid, now) == ws[..i] + ws[i + 1..]
    {
      WithoutFirstAt(ws, pid, i);
    }
  }

  /** Toggling keeps at most one entry per product. */
  lemma ToggleKeepsUnique(ws: seq<WishlistEntry>, pid: ProductId, now: Timestamp)
    requires UniqueWishlist(ws)
    ensures UniqueWishlist(Toggled(ws, pid, now))
  {
    if InWishlist(ws, pid) {
      var i :| 0 <= i < |ws| && ws[i].productId == pid;
      assert IsFirstWishlistIndex(ws, pid, i);
      WithoutFirstAt(ws, pid, i);
      var r := ws[..i] + ws[i + 1..];
      forall a, b | 0 <= a < b < |r| ensures r[a].productId != r[b].productId {
        var a' := if a < i then a else a + 1;
        var b' := if b < i then b else b + 1;
        assert r[a] == ws[a'] && r[b] == ws[b'];
      }
    }
  }

  /** Splicing out the only entry for pid removes pid and no other product. */
  lemma SpliceFlipsMembership(ws: seq<WishlistEntry>, pid: ProductId, i: int, q: ProductId)
    requires UniqueWishlist(ws) && IsFirstWishlistIndex(ws, pid, i)
    ensures InWishlist(ws[..i] + ws[i + 1..], q) <==> q != pid && InWishlist(ws, q)
  {
    var r := ws[..i] + ws[i + 1..];
    if InWishlist(r, q) {
      var k :| 0 <= k < |r| && r[k].productId == q;
      var k' := if k < i then k else k + 1;
      assert r[k] == ws[k'];
    }
    if q != pid && InWishlist(ws, q) {
      var k :| 0 <= k < |ws| && ws[k].productId == q;
      assert k != i;
      var k' := if k < i then k else k - 1;
      assert r[k'] == ws[k];
    }
  }

  /** Appending an entry for pid adds pid and no other product. */
  lemma AppendFlipsMembership(ws: seq<WishlistEntry>, pid: ProductId, now: Timestamp, q: ProductId)
    ensures InWishlist(ws + [WishlistEntry(pid, now)], q) <==> q == pid || InWishlist(ws, q)
  {
    var r := ws + [WishlistEntry(pid, now)];
    assert r[|ws|].productId == pid;
    if InWishlist(r, q) {
      var k :| 0 <= k < |r| && r[k].productId == q;
      if k < |ws| {
        assert r[k] == ws[k];
      }
    }
    if InWishlist(ws, q) {
      var k :| 0 <= k < |ws| && ws[k].productId == q;
      assert r[k] == ws[k];
    }
  }

  /** With one entry per product, toggling flips the membership of pid and of nothing else. */
  lemma ToggleFlipsMembership(ws: seq<WishlistEntry>, pid: ProductId, now: Timestamp, q: ProductId)
    requires UniqueWishlist(ws)
    ensures InWishlist(Toggled(ws, pid, now), q) <==> (if q == pid then !InWishlist(ws, pid) else InWishlist(ws, q))
  {
    if InWishlist(ws, pid) {
      var i :| 0 <= i < |ws| && ws[i].productId == pid;
      assert IsFirstWishlistIndex(ws, pid, i);
      WithoutFirstAt(ws, pid, i);
      SpliceFlipsMembership(ws, pid, i, q);
    } else {
      AppendFlipsMembership(ws, pid, now, q);
    }
  }

  /** Toggling pid twice restores which products are wishlisted, given one entry per product. */
  lemma ToggleTwiceRestoresMembership(ws: seq<WishlistEntry>, pid: ProductId, t1: Timestamp, t2: Timestamp, q: ProductId)
    requires UniqueWishlist(ws)
    ensures InWishlist(Toggled(Toggled(ws, pid, t1), pid, t2), q) <==> InWishlist(ws, q)
  {
    ToggleKeepsUnique(ws, pid, t1);
    ToggleFlipsMembership(ws, pid, t1, q);
    ToggleFlipsMembership(ws, pid, t1, pid);
    ToggleFlipsMembership(Toggled(ws, pid, t1), pid, t2, q);
  }

  /** When pid was absent, toggling twice gives back exactly the original list. */
  lemma {:induction false} ToggleTwiceFromAbsent(ws: seq<WishlistEntry>, pid: ProductId, t1: Timestamp, t2: Timestamp)
    requires !InWishlist(ws, pid)
    ensures Toggled(Toggled(ws, pid, t1), pid, t2) == ws
  {
    var r := ws + [WishlistEntry(pid, t1)];
    assert r[|ws|].productId == pid;
    assert IsFirstWishlistIndex(r, pid, |ws|);
    WithoutFirstAt(r, pid, |ws|);
    assert r[..|ws|] == ws;
  }

  /** The proviso matters: with two entries for one product, toggling twice empties it. */
  lemma ToggleTwiceWithDuplicate(pid: ProductId, t0: Timestamp, t1: Timestamp, t2: Timestamp)
    ensures Toggled(Toggled([WishlistEntry(pid, t0), WishlistEntry(pid, t0)], pid, t1), pid, t2) == []
  {
    var ws := [WishlistEntry(pid, t0), WishlistEntry(pid, t0)];
    assert ws[0].productId == pid;
    var once := Toggled(ws, pid, t1);
    assert once == [WishlistEntry(pid, t0)];
    assert once[0].productId == pid;
  }

  // ------------------------------------------------- cart and saved-for-later

  predicate HasKey(items: seq<CartItem>, key: ItemKey)
  {
    exists i :: 0 <= i < |items| && KeyOf(items[i]) == key
  }

  /** At most one entry per (productId, size, color). */
  predicate UniqueKeys(items: seq<CartItem>)
  {
    forall i, j :: 0 <= i < j < |items| ==> KeyOf(items[i]) != KeyOf(items[j])
  }

  /** i is the position of the entry that `find` returns for key. */
  predicate IsFirstKeyIndex(items: seq<CartItem>, key: ItemKey, i: int)
  {
    0 <= i < |items| && KeyOf(items[i]) == key && forall j :: 0 <= j < i ==> KeyOf(items[j]) != key
  }

  /** The list after a valid request: the first entry with its key takes the new quantity, or a new entry is pushed. */
  function Upserted(items: seq<CartItem>, req: CartRequest, now: Timestamp): (r: seq<CartItem>)
    ensures |items| <= |r| <= |items| + 1
  {
    if items == [] then [NewItem(req, now)]
    else if KeyOf(items[0]) == RequestKey(req) then [items[0].(quantity := req.quantity)] + items[1..]
    else [items[0]] + Upserted(items[1..], req, now)
  }

  /** The whole effect of updateCart / updateSavedForLater on one list, the exception included. */
  function Update(items: seq<CartItem>, req: CartRequest, now: Timestamp): (r: Result<seq<CartItem>, CartError>)
    ensures r.Ok? <==> HasRequiredFields(req)
    ensures r.Ok? ==> |items| <= |r.value| <= |items| + 1
  {
    if HasRequiredFields(req) then Ok(Upserted(items, req, now)) else Err(MissingRequiredFields)
  }

  /** The list after removeFromSavedForLater(key): every entry with that key filtered out. */
  function WithoutKey(items: seq<CartItem>, key: ItemKey): (r: seq<CartItem>)
    ensures !HasKey(r, key)
    ensures forall it :: it in r <==> it in items && KeyOf(it) != key
  {
    var r := Filter(items, (it: CartItem) => KeyOf(it) != key);
    assert forall i :: 0 <= i < |r| ==> r[i] in r;
    r
  }

  /** An existing key gets the supplied quantity (not the sum), and nothing else changes. */
  lemma {:induction false} UpsertedOverwrites(items: seq<CartItem>, req: CartRequest, now: Timestamp, i: int)
    requires IsFirstKeyIndex(items, RequestKey(req), i)
    ensures Upserted(items, req, now) == items[i := items[i].(quantity := req.quantity)]
  {
    if i > 0 {
      UpsertedOverwrites(items[1..], req, now, i - 1);
      assert [items[0]] + items[1..][i - 1 := items[i].(quantity := req.quantity)]
          == items[i := items[i].(quantity := req.quantity)];
    }
  }

  /** A new key is pushed at the end: exactly one entry more, the others unchanged. */
  lemma {:induction false} UpsertedAppends(items: seq<CartItem>, req: CartRequest, now: Timestamp)
    requires !HasKey(items, RequestKey(req))
    ensures Upserted(items, req, now) == items + [NewItem(req, now)]
  {
    if items != [] {
      var key, rest := RequestKey(req), items[1..];
      assert KeyOf(items[0]) != key;
      assert !HasKey(rest, key) by {
        forall k | 0 <= k < |rest| ensures KeyOf(rest[k]) != key {
          assert rest[k] == items[k + 1];
        }
      }
      UpsertedAppends(rest, req, now);
      var n := NewItem(req, now);
      assert Upserted(items, req, now) == [items[0]] + (rest + [n]);
      assert [items[0]] + (rest + [n]) == items + [n];
    }
  }

  /** In a list with one entry per key, every entry with a key is the first one. */
  lemma UniqueFirstIndex(items: seq<CartItem>, key: ItemKey, i: int)
    requires UniqueKeys(items) && 0 <= i < |items| && KeyOf(items[i]) == key
    ensures IsFirstKeyIndex(items, key, i)
  {
  }

  /**
   * An update keeps one entry per key exactly when it does not push an entry
   * whose stored key is already there: either the request's own key is
   * found, or its trimmed key is new. A matched entry takes the request's
   * quantity in place; otherwise the new entry is pushed at the end.
   */
  lemma UpsertedKeepsUnique(items: seq<CartItem>, req: CartRequest, now: Timestamp)
    requires UniqueKeys(items)
    ensures UniqueKeys(Upserted(items, req, now)) <==> HasKey(items, RequestKey(req)) || !HasKey(items, StoredKey(req))
    ensures RequestTrimmed(req) ==> UniqueKeys(Upserted(items, req, now))
    ensures |Upserted(items, req, now)| == |items| + (if HasKey(items, RequestKey(req)) then 0 else 1)
    ensures HasKey(items, RequestKey(req)) ==>
              exists i :: 0 <= i < |items| && KeyOf(items[i]) == RequestKey(req)
                       && Upserted(items, req, now)[i] == items[i].(quantity := req.quantity)
    ensures !HasKey(items, RequestKey(req)) ==>
              Upserted(items, req, now)[|items|] == NewItem(req, now) && KeyOf(NewItem(req, now)) == StoredKey(req)
  {
    var key := RequestKey(req);
    var r := Upserted(items, req, now);
    if HasKey(items, key) {
      var i :| 0 <= i < |items| && KeyOf(items[i]) == key;
      UniqueFirstIndex(items, key, i);
      UpsertedOverwrites(items, req, now, i);
      assert forall k :: 0 <= k < |r| ==> KeyOf(r[k]) == KeyOf(items[k]);
      assert r[i] == items[i].(quantity := req.quantity);
    } else {
      UpsertedAppends(items, req, now);
      assert r[|items|] == NewItem(req, now);
      if HasKey(items, StoredKey(req)) {
        var k :| 0 <= k < |items| && KeyOf(items[k]) == StoredKey(req);
        assert r[k] == items[k] && KeyOf(r[k]) == KeyOf(r[|items|]);
      } else {
        forall a, b | 0 <= a < b < |r| ensures KeyOf(r[a]) != KeyOf(r[b]) {
          if b == |items| {
            assert r[a] == items[a];
          } else {
            assert r[a] == items[a] && r[b] == items[b];
          }
        }
      }
    }
  }

  /** Some position with the key is the first one. */
  lemma {:induction false} FirstKeyIndexExists(items: seq<CartItem>, key: ItemKey, i: int)
    requires 0 <= i < |items| && KeyOf(items[i]) == key
    ensures exists j :: IsFirstKeyIndex(items, key, j)
    decreases i
  {
    if exists j :: 0 <= j < i && KeyOf(items[j]) == key {
      var j :| 0 <= j < i && KeyOf(items[j]) == key;
      FirstKeyIndexExists(items, key, j);
    } else {
      assert IsFirstKeyIndex(items, key, i);
    }
  }

  /** An update keeps every stored size and color trimmed. */
  lemma UpsertedKeepsTrimmed(items: seq<CartItem>, req: CartRequest, now: Timestamp)
    requires AllTrimmed(items)
    ensures AllTrimmed(Upserted(items, req, now))
  {
    var r := Upserted(items, req, now);
    if HasKey(items, RequestKey(req)) {
      var i :| 0 <= i < |items| && KeyOf(items[i]) == RequestKey(req);
      FirstKeyIndexExists(items, RequestKey(req), i);
      var j :| IsFirstKeyIndex(items, RequestKey(req), j);
      UpsertedOverwrites(items, req, now, j);
    } else {
      UpsertedAppends(items, req, now);
      assert forall k :: 0 <= k < |items| ==> r[k] == items[k];
    }
  }

  /** When every stored entry is trimmed, a request with an untrimmed size or color never matches one. */
  lemma UntrimmedNeverMatches(items: seq<CartItem>, req: CartRequest)
    requires AllTrimmed(items) && !RequestTrimmed(req)
    ensures !HasKey(items, RequestKey(req))
  {
  }

  /**
   * A size sent with a trailing space misses the stored entry and is pushed
   * trimmed beside it: the cart then holds two entries with one key.
   */
  lemma UntrimmedRequestDuplicates(pid: ProductId, t: Timestamp, now: Timestamp)
    ensures var items := [CartItem(pid, 1, "M", "red", t)];
            var r := Upserted(items, CartRequest(pid, 2, "M ", "red"), now);
            UniqueKeys(items) && r == items + [CartItem(pid, 2, "M", "red", now)] && !UniqueKeys(r)
  {
    var items := [CartItem(pid, 1, "M", "red", t)];
    var req := CartRequest(pid, 2, "M ", "red");
    assert "M " != "M" by { assert |"M "| == 2; }
    assert !HasKey(items, RequestKey(req));
    assert !IsTrimmed("M ") && IsTrimmed("M") && IsTrimmed("red");
    assert Trim("M ") == "M" by {
      assert TrimStart("M ") == "M ";
      assert "M "[..1] == "M";
      assert TrimEnd("M ") == TrimEnd("M");
    }
    UpsertedAppends(items, req, now);
    var r := Upserted(items, req, now);
    assert KeyOf(r[0]) == KeyOf(r[1]);
  }

  /** Filtering keeps one entry per key. */
  lemma {:induction false} FilterKeepsUniqueKeys(items: seq<CartItem>, keep: CartItem -> bool)
    requires UniqueKeys(items)
    ensures UniqueKeys(Filter(items, keep))
  {
    if items != [] {
      var rest := items[1..];
      assert UniqueKeys(rest) by {
        forall a, b | 0 <= a < b < |rest| ensures KeyOf(rest[a]) != KeyOf(rest[b]) {
          assert rest[a] == items[a + 1] && rest[b] == items[b + 1];
        }
      }
      FilterKeepsUniqueKeys(rest, keep);
      var tail := Filter(rest, keep);
      if keep(items[0]) {
        var r := [items[0]] + tail;
        forall a, b | 0 <= a < b < |r| ensures KeyOf(r[a]) != KeyOf(r[b]) {
          if a == 0 {
            assert r[b] == tail[b - 1] && r[b] in tail;
            var k :| 0 <= k < |rest| && rest[k] == r[b];
            assert items[k + 1] == r[b];
          } else {
            assert r[a] == tail[a - 1] && r[b] == tail[b - 1];
          }
        }
      } else {
        assert Filter(items, keep) == tail;
      }
    }
  }

  /** Removing a key keeps one entry per key, and keeps the other entries in their order. */
  lemma WithoutKeyKeepsOthers(items: seq<CartItem>, key: ItemKey, more: seq<CartItem>)
    ensures UniqueKeys(items) ==> UniqueKeys(WithoutKey(items, key))
    ensures !HasKey(more, key) ==> WithoutKey(items + more, key) == WithoutKey(items, key) + more
  {
    var keep := (it: CartItem) => KeyOf(it) != key;
    if UniqueKeys(items) {
      FilterKeepsUniqueKeys(items, keep);
    }
    if !HasKey(more, key) {
      FilterConcat(items, more, keep);
      FilterKeepsAll(more, keep);
    }
  }

  // ------------------------------------------------------------ phone number

  predicate IsDigit(c: char)
  {
    '0' <= c <= '9'
  }

  predicate AllDigits(s: string)
  {
    forall i :: 0 <= i < |s| ==> IsDigit(s[i])
  }

  /** The regular-expression tail `\d{lo,hi}$`: between lo and hi digits, then the end. */
  predicate DigitsThenEnd(s: string, lo: nat, hi: nat)
  {
    if s == [] then lo == 0
    else hi > 0 && IsDigit(s[0]) && DigitsThenEnd(s[1..], if lo == 0 then 0 else lo - 1, hi - 1)
  }

  /** `[1-9]\d{1,14}$` */
  predicate SubscriberPart(s: string)
  {
    |s| > 0 && '1' <= s[0] <= '9' && DigitsThenEnd(s[1..], 1, 14)
  }

  /** The schema's pattern `^\+?[1-9]\d{1,14}$`, tried with the optional plus and without it. */
  predicate MatchesPhonePattern(s: string)
  {
    (|s| > 0 && s[0] == '+' && SubscriberPart(s[1..])) || SubscriberPart(s)
  }

  /** A phone number in the style of ITU-T E.164: an optional plus, then 2 to 15 digits, the first not 0. */
  predicate IsPhoneNumber(s: string)
  {
    var digits := if |s| > 0 && s[0] == '+' then s[1..] else s;
    2 <= |digits| <= 15 && digits[0] != '0' && AllDigits(digits)
  }

  lemma {:induction false} DigitsThenEndIff(s: string, lo: nat, hi: nat)
    ensures DigitsThenEnd(s, lo, hi) <==> lo <= |s| <= hi && AllDigits(s)
  {
    if s != [] && hi > 0 {
      DigitsThenEndIff(s[1..], if lo == 0 then 0 else lo - 1, hi - 1);
      assert AllDigits(s) <==> IsDigit(s[0]) && AllDigits(s[1..]) by {
        if IsDigit(s[0]) && AllDigits(s[1..]) {
          forall i | 0 <= i < |s| ensures IsDigit(s[i]) {
            if i > 0 { assert s[i] == s[1..][i - 1]; }
          }
        }
      }
    }
  }

  /** The pattern accepts exactly the E.164-style numbers. */
  lemma PhonePatternIsE164(s: string)
    ensures MatchesPhonePattern(s) <==> IsPhoneNumber(s)
  {
    if |s| > 0 {
      DigitsThenEndIff(s[1..], 1, 14);
      if |s| > 1 {
        DigitsThenEndIff(s[1..][1..], 1, 14);
      }
      var digits := if s[0] == '+' then s[1..] else s;
      if |digits| > 0 && AllDigits(digits[1..]) && IsDigit(digits[0]) {
        assert AllDigits(digits) by {
          forall i | 0 <= i < |digits| ensures IsDigit(digits[i]) {
            if i > 0 { assert digits[i] == digits[1..][i - 1]; }
          }
        }
      }
    }
  }

  // ------------------------------------------------------------ the document

  /**
   * Scans items for the first entry with key, as `Array.prototype.find` does;
   * returns its index, or -1 when there is none.
   */
  method FindItem(items: seq<CartItem>, key: ItemKey) returns (index: int)
    ensures index == -1 <==> !HasKey(items, key)
    ensures index != -1 ==> IsFirstKeyIndex(items, key, index)
  {
    index := 0;
    while index < |items| && KeyOf(items[index]) != key
      invariant 0 <= index <= |items|
      invariant forall j :: 0 <= j < index ==> KeyOf(items[j]) != key
    {
      index := index + 1;
    }
    if index == |items| {
      index := -1;
    }
  }

  /** The collections of one user document. Saving is the identity here. */
  class User {
    var phoneNumber: string
    var wishlist: seq<WishlistEntry>
    var cart: seq<CartItem>
    var savedForLater: seq<CartItem>

    /** One entry per product in the wishlist, one per key in each list, and sizes and colors trimmed. */
    ghost predicate Valid()
      reads this
    {
      && UniqueWishlist(wishlist)
      && UniqueKeys(cart) && UniqueKeys(savedForLater)
      && AllTrimmed(cart) && AllTrimmed(savedForLater)
    }

    /** The schema's phone-number validation (required, matching the pattern). */
    predicate HasValidPhoneNumber()
      reads this
    {
      MatchesPhonePattern(phoneNumber)
    }

    /** A new user document. The `trim: true` setter trims the phone number before the pattern sees it. */
    constructor (phoneNumber: string)
      ensures this.phoneNumber == Trim(phoneNumber)
      ensures HasValidPhoneNumber() <==> IsPhoneNumber(Trim(phoneNumber))
      ensures wishlist == [] && cart == [] && savedForLater == []
      ensures Valid()
    {
      this.phoneNumber := Trim(phoneNumber);
      PhonePatternIsE164(Trim(phoneNumber));
      wishlist, cart, savedForLater := [], [], [];
    }

    /** `findIndex` over the wishlist: the first entry for pid, or -1. */
    method FindWishlistIndex(pid: ProductId) returns (index: int)
      ensures index == -1 <==> !InWishlist(wishlist, pid)
      ensures index != -1 ==> IsFirstWishlistIndex(wishlist, pid, index)
    {
      index := 0;
      while index < |wishlist| && wishlist[index].productId != pid
        invariant 0 <= index <= |wishlist|
        invariant forall j :: 0 <= j < index ==> wishlist[j].productId != pid
      {
        index := index + 1;
      }
      if index == |wishlist| {
        index := -1;
      }
    }

    method ToggleWishlist(pid: ProductId, now: Timestamp)
      modifies this
      ensures wishlist == Toggled(old(wishlist), pid, now)
      ensures old(Valid()) ==> Valid()
      ensures cart == old(cart) && savedForLater == old(savedForLater) && phoneNumber == old(phoneNumber)
    {
      ghost var before := wishlist;
      var existingIndex := FindWishlistIndex(pid);
      if existingIndex >= 0 {
        WithoutFirstAt(wishlist, pid, existingIndex);
        wishlist := wishlist[..existingIndex] + wishlist[existingIndex + 1..];
      } else {
        wishlist := wishlist + [WishlistEntry(pid, now)];
      }
      if UniqueWishlist(before) {
        ToggleKeepsUnique(before, pid, now);
      }
    }

    method UpdateCart(req: CartRequest, now: Timestamp) returns (error: Option<CartError>)
      modifies this
      ensures error == None <==> HasRequiredFields(req)
      ensures Update(old(cart), req, now) == (if error == None then Ok(cart) else Err(error.value))
      ensures error != None ==> cart == old(cart)
      ensures old(Valid()) ==>
                (Valid() <==> error != None || HasKey(old(cart), RequestKey(req)) || !HasKey(old(cart), StoredKey(req)))
      ensures old(Valid()) && RequestTrimmed(req) ==> Valid()
      ensures wishlist == old(wishlist) && savedForLater == old(savedForLater) && phoneNumber == old(phoneNumber)
    {
      if !HasRequiredFields(req) {
        return Some(MissingRequiredFields);
      }
      cart := UpsertInto(cart, req, now);
      error := None;
    }

    method UpdateSavedForLater(req: CartRequest, now: Timestamp) returns (error: Option<CartError>)
      modifies this
      ensures error == None <==> HasRequiredFields(req)
      ensures Update(old(savedForLater), req, now) == (if error == None then Ok(savedForLater) else Err(error.value))
      ensures error != None ==> savedForLater == old(savedForLater)
      ensures old(Valid()) ==>
                (Valid() <==> error != None || HasKey(old(savedForLater), RequestKey(req)) || !HasKey(old(savedForLater), StoredKey(req)))
      ensures old(Valid()) && RequestTrimmed(req) ==> Valid()
      ensures wishlist == old(wishlist) && cart == old(cart) && phoneNumber == old(phoneNumber)
    {
      if !HasRequiredFields(req) {
        return Some(MissingRequiredFields);
      }
      savedForLater := UpsertInto(savedForLater, req, now);
      error := None;
    }

    method RemoveFromSavedForLater(pid: ProductId, size: string, color: string)
      modifies this
      ensures savedForLater == WithoutKey(old(savedForLater), ItemKey(pid, size, color))
      ensures old(Valid()) ==> Valid()
      ensures wishlist == old(wishlist) && cart == old(cart) && phoneNumber == old(phoneNumber)
    {
      WithoutKeyKeepsOthers(savedForLater, ItemKey(pid, size, color), []);
      savedForLater := WithoutKey(savedForLater, ItemKey(pid, size, color));
    }

    method ClearCart()
      modifies this
      ensures cart == []
      ensures old(Valid()) ==> Valid()
      ensures wishlist == old(wishlist) && savedForLater == old(savedForLater) && phoneNumber == old(phoneNumber)
    {
      cart := [];
    }
  }

  /**
   * The find-then-assign-or-push step shared by both update methods: the
   * found entry's quantity is overwritten, otherwise a new entry is pushed.
   */
  method UpsertInto(items: seq<CartItem>, req: CartRequest, now: Timestamp) returns (r: seq<CartItem>)
    ensures r == Upserted(items, req, now)
    ensures UniqueKeys(items) ==> (UniqueKeys(r) <==> HasKey(items, RequestKey(req)) || !HasKey(items, StoredKey(req)))
    ensures AllTrimmed(items) ==> AllTrimmed(r)
  {
    var i := FindItem(items, RequestKey(req));
    if i >= 0 {
      UpsertedOverwrites(items, req, now, i);
      r := items[i := items[i].(quantity := req.quantity)];
    } else {
      UpsertedAppends(items, req, now);
      r := items + [NewItem(req, now)];
    }
    if UniqueKeys(items) {
      UpsertedKeepsUnique(items, req, now);
    }
    if AllTrimmed(items) {
      UpsertedKeepsTrimmed(items, req, now);
    }
  }
}
