/**
 * Client-side cart persistence (web/src/utils/cart.ts).
 *
 * A cart is a list of lines `{id, qty}` kept in the browser's `localStorage`
 * under a key derived from the cart's owner: a fixed guest key, or one key
 * per signed-in account. `localStorage` is modelled as a class whose only
 * field is the map from keys to stored values; the stored JSON text is
 * modelled by the value it parses to, or by `Malformed` when it does not
 * parse.
 */
module Cart {
  import opened Wrappers

  /** A parsed JSON value. Numbers are exact reals: NaN and the infinities do not occur. */
  datatype Json =
    | JNull
    | JBool(b: bool)
    | JNumber(n: real)
    | JString(s: string)
    | JArray(elems: seq<Json>)
    | JObject(fields: map<string, Json>)

  /**
   * The shape a stored entry must have to be read back as a cart line: an
   * object whose `id` is a string and whose `qty` is a number. Every other
   * JSON value (null, a scalar, an array, an object lacking either field) fails.
   */
  predicate IsCartLine(j: Json)
  {
    && j.JObject?
    && "id" in j.fields && j.fields["id"].JString?
    && "qty" in j.fields && j.fields["qty"].JNumber?
  }

  /**
   * A cart line as the program sees it at run time: a JSON object with a
   * string `id` and a numeric `qty`. Other fields may ride along; the filter
   * keeps the stored object as it is.
   */
  type CartLine = j: Json | IsCartLine(j)
    witness JObject(map["id" := JString(""), "qty" := JNumber(0.0)])

  /**
   * What a `localStorage` entry holds: the empty string, text that is not
   * JSON, or text that parses to a JSON value.
   */
  datatype Stored = EmptyText | Malformed | Parsed(value: Json)

  /** The key of the cart shared by everyone who is not signed in. */
  const GuestKey: string := "cart"

  /** The owner as the key sees it: `null` and the empty id both mean the guest. */
  function OwnerName(ownerId: Option<string>): string
  {
    if ownerId.Some? then ownerId.value else ""
  }

  /** The storage key of an owner's cart. */
  function CartKey(ownerId: Option<string>): (key: string)
    ensures OwnerName(ownerId) == "" ==> key == GuestKey
    ensures OwnerName(ownerId) != "" ==> key == "cart:" + OwnerName(ownerId)
  {
    if ownerId.Some? && ownerId.value != "" then "cart:" + ownerId.value else GuestKey
  }

  /**
   * Carts never share a key unless they have the same owner: distinct
   * signed-in owners get distinct keys, and no owner's key is the guest key.
   */
  lemma CartKeyInjective(a: Option<string>, b: Option<string>)
    ensures CartKey(a) == CartKey(b) <==> OwnerName(a) == OwnerName(b)
  {
    if OwnerName(a) != "" && OwnerName(b) != "" && CartKey(a) == CartKey(b) {
      assert OwnerName(a) == CartKey(a)[|"cart:"|..];
    }
  }

  /**
   * Subsequence: `r` is `s` with some elements left out, in the original
   * order.
   */
  ghost predicate IsSubsequence<T>(r: seq<T>, s: seq<T>)
    decreases |s|
  {
    if r == [] then true
    else if s == [] then false
    else (r[0] == s[0] && IsSubsequence(r[1..], s[1..])) || IsSubsequence(r, s[1..])
  }

  /**
   * The entries of a stored array that are cart lines, in stored order: each
   * of them is kept as often as it occurs, and nothing else is.
   */
  function KeepCartLines(entries: seq<Json>): (kept: seq<CartLine>)
    ensures IsSubsequence(kept, entries)
    ensures forall j: CartLine :: multiset(kept)[j] == multiset(entries)[j]
  {
    if entries == [] then []
    else
      var rest := KeepCartLines(entries[1..]);
      assert entries == [entries[0]] + entries[1..];
      if IsCartLine(entries[0]) then [entries[0]] + rest else rest
  }

  /** A list made only of cart lines passes the filter untouched. */
  lemma {:induction false} KeepCartLinesAll(lines: seq<CartLine>)
    ensures KeepCartLines(lines) == lines
  {
    if lines != [] {
      KeepCartLinesAll(lines[1..]);
    }
  }

  /**
   * The cart read from one storage entry (`None` when the key is absent):
   * nothing unless the entry is non-empty text that parses to an array, and
   * then that array's cart lines.
   */
  function ReadStored(entry: Option<Stored>): (lines: seq<CartLine>)
    ensures (entry.None? || !entry.value.Parsed? || !entry.value.value.JArray?) ==> lines == []
    ensures entry.Some? && entry.value.Parsed? && entry.value.value.JArray? ==>
              && IsSubsequence(lines, entry.value.value.elems)
              && forall j: CartLine :: multiset(lines)[j] == multiset(entry.value.value.elems)[j]
  {
    match entry
    case Some(Parsed(JArray(elems))) => KeepCartLines(elems)
    case _ => []
  }

  /** What writing a cart stores: the value its JSON text parses to, the array of its lines. */
  function Stringify(lines: seq<CartLine>): Stored
  {
    Parsed(JArray(lines))
  }

  /** Reading back what was written gives the same lines, in the same order. */
  lemma StringifyRoundTrip(lines: seq<CartLine>)
    ensures ReadStored(Some(Stringify(lines))) == lines
  {
    KeepCartLinesAll(lines);
  }

  function Lookup(items: map<string, Stored>, key: string): Option<Stored>
  {
    if key in items then Some(items[key]) else None
  }

  /** The cart of `ownerId` in a browser whose storage holds `items`. */
  function CartOf(items: map<string, Stored>, ownerId: Option<string>): seq<CartLine>
  {
    ReadStored(Lookup(items, CartKey(ownerId)))
  }

  /** Writing an owner's cart and reading it back yields the lines written. */
  lemma WriteReadRoundTrip(items: map<string, Stored>, lines: seq<CartLine>, ownerId: Option<string>)
    ensures CartOf(items[CartKey(ownerId) := Stringify(lines)], ownerId) == lines
  {
    StringifyRoundTrip(lines);
  }

  /**
   * Writing one owner's cart leaves every other owner's cart as it was; in
   * particular the guest cart and a signed-in cart never see each other's
   * writes.
   */
  lemma WriteIsolation(items: map<string, Stored>, lines: seq<CartLine>, writer: Option<string>, reader: Option<string>)
    requires OwnerName(writer) != OwnerName(reader)
    ensures CartOf(items[CartKey(writer) := Stringify(lines)], reader) == CartOf(items, reader)
  {
    CartKeyInjective(writer, reader);
  }

  /** The browser's `localStorage`: a map from keys to stored values. */
  class LocalStorage {
    var items: map<string, Stored>

    constructor ()
      ensures items == map[]
    {
      items := map[];
    }

    /** `getItem`: the entry under `key`, `None` when there is none. */
    function GetItem(key: string): (entry: Option<Stored>)
      reads this
      ensures entry.Some? <==> key in items
      ensures entry.Some? ==> entry.value == items[key]
    {
      Lookup(items, key)
    }

    /** `setItem`: replaces the entry under `key` and no other. */
    method SetItem(key: string, value: Stored)
      modifies this
      ensures items == old(items)[key := value]
    {
      items := items[key := value];
    }
  }

  /**
   * `readCart`: the cart of `ownerId`. Outside a browser (`inBrowser` false,
   * no `window`) there is no storage and the cart is empty.
   */
  method ReadCart(storage: LocalStorage, inBrowser: bool, ownerId: Option<string>) returns (lines: seq<CartLine>)
    ensures !inBrowser ==> lines == []
    ensures inBrowser ==> lines == CartOf(storage.items, ownerId)
  {
    if !inBrowser {
      return [];
    }
    var key := CartKey(ownerId);
    var raw := storage.GetItem(key);
    lines := ReadStored(raw);
  }

  /**
   * `writeCart`: overwrites the cart of `ownerId` with `lines`. Outside a
   * browser nothing is stored.
   */
  method WriteCart(storage: LocalStorage, inBrowser: bool, lines: seq<CartLine>, ownerId: Option<string>)
    modifies storage
    ensures !inBrowser ==> storage.items == old(storage.items)
    ensures inBrowser ==> storage.items == old(storage.items)[CartKey(ownerId) := Stringify(lines)]
  {
    if !inBrowser {
      return;
    }
    var key := CartKey(ownerId);
    storage.SetItem(key, Stringify(lines));
  }

  /**
   * A visitor fills the guest cart, signs in and fills their own: both carts
   * read back as written, so signing in or out never merges them.
   */
  method SwitchOwner(storage: LocalStorage, guestLines: seq<CartLine>, account: string, accountLines: seq<CartLine>)
      returns (guestCart: seq<CartLine>, accountCart: seq<CartLine>)
    requires account != ""
    modifies storage
    ensures guestCart == guestLines && accountCart == accountLines
    ensures storage.items == old(storage.items)[CartKey(None) := Stringify(guestLines)]
                                               [CartKey(Some(account)) := Stringify(accountLines)]
  {
    WriteCart(storage, true, guestLines, None);
    WriteReadRoundTrip(storage.items, accountLines, Some(account));
    WriteIsolation(storage.items, accountLines, Some(account), None);
    WriteReadRoundTrip(old(storage.items), guestLines, None);
    WriteCart(storage, true, accountLines, Some(account));
    guestCart := ReadCart(storage, true, None);
    accountCart := ReadCart(storage, true, Some(account));
  }
}
