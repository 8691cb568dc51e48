# Storefront utilities: cover paths, persisted carts, validation issues

A Dafny model of three small pieces of logic in a record-shop storefront's web
client and API:

- **Cover-image paths** (`web/src/utils/image.ts`). Product records store a
  cover image as an asset path in several spellings. `normalizeCoverPath`
  turns any of them into one site-absolute URL path. The rewrites are: an
  empty path becomes a placeholder icon; at most one leading `public/` is
  dropped; `assets/imgs/albuns/` becomes `albuns/`; a leading `assets/imgs/`
  is dropped; a `/` is put in front if missing. Module `Image` models this as
  pure functions, since the source is a chain of anchored prefix rewrites.
- **Cart persistence** (`web/src/utils/cart.ts`). The cart lives in the
  browser's `localStorage` under a key per owner: `"cart"` for guests and
  `"cart:<id>"` for a signed-in account. `readCart` keeps only the stored
  entries shaped like `{id: string, qty: number}`. It returns an empty cart
  when the key is missing or empty, when the text is not JSON, or when the JSON
  is not an array. `writeCart` overwrites the owner's entry. Module `Cart`
  models `localStorage` as a class with one `map` field, `ReadCart` and
  `WriteCart` as methods that take it as a parameter, and the decoding as pure functions. Stored
  text is represented by the JSON value it parses to (`Stored.Parsed`), by
  `Malformed` when parsing fails, or by `EmptyText`. A cart line is a subset
  type of JSON values: an object with a string `id` and a numeric `qty`,
  possibly with other fields. Such objects are returned as stored.
- **Validation issues** (`web/src/utils/http.ts`). `toIssues` flattens a
  schema validator's issues into `{message, path, code}`. The path's keys and
  array indices are joined with dots. A value without `issues` is returned
  unchanged. Module `Http` models this as pure functions. The dotted text is
  given an inverse, `SplitOnDots`: for a non-empty path whose keys contain no
  dot, the segment texts can be recovered from the dotted text.

Module `Wrappers` holds the `Option` type used for JavaScript's `null`.

`readCart` does not check that a quantity is a whole number of at least 1.
It keeps any numeric `qty`, including 0, negative and fractional values,
even though the pages only ever set quantities of 1 or more. The
model follows `readCart`.

## Model

| member | source | states |
|---|---|---|
| `Image.NormalizeCoverPath` | web/src/utils/image.ts:3-10 | an empty path gives exactly `/icons/under-construction.png`; every result is non-empty and starts with `/` |
| `Image.NormalizeKeepsRooted` | web/src/utils/image.ts:5-9 | a path that already starts with `/` is returned unchanged |
| `Image.NormalizeIdempotent` | web/src/utils/image.ts:3-10 | normalising a normalised path changes nothing |
| `Image.NormalizeDropsPublic` | web/src/utils/image.ts:5 | a leading `public/` is dropped and the rest is normalised as if stored without it |
| `Image.NormalizeAlbumPath` | web/src/utils/image.ts:5-8 | `assets/imgs/albuns/s` and `public/assets/imgs/albuns/s` both give `/albuns/s` |
| `Image.NormalizeImgsPath` | web/src/utils/image.ts:5-8 | `assets/imgs/s` and `public/assets/imgs/s` give `/s`, or `s` when `s` already starts with `/`, for any `s` not starting with `albuns/` |
| `Image.NormalizeStripsOnePublic` | web/src/utils/image.ts:5 | only one `public/` is removed: `public/public/s` gives `/public/s` |
| `Image.NormalizePlainPath` | web/src/utils/image.ts:5-9 | a non-empty path with none of the known prefixes only gains a leading `/` |
| `Image.NormalizeKeepsSuffix` | web/src/utils/image.ts:5-8 | only a prefix is altered: the result is the input with one of the known prefixes cut off, and `""`, `/` or `/albuns/` put in front |
| `Cart.CartKey` | web/src/utils/cart.ts:4-8 | `null` or an empty owner id gives the guest key `cart`; any other id gives `cart:` followed by the id |
| `Cart.CartKeyInjective` | web/src/utils/cart.ts:6-8 | two owners share a key exactly when they are the same owner; no signed-in owner's key is the guest key |
| `Cart.KeepCartLines` | web/src/utils/cart.ts:19-21 | the kept entries are a subsequence of the stored array, in order; each well-formed line keeps its number of occurrences and nothing else is kept |
| `Cart.KeepCartLinesAll` | web/src/utils/cart.ts:19-21 | an array made only of well-formed lines passes the filter unchanged |
| `Cart.ReadStored` | web/src/utils/cart.ts:14-24 | an absent key, empty text, unparsable text or a non-array value yields the empty cart; an array yields its well-formed entries, in stored order, each as often as it occurs |
| `Cart.LocalStorage.GetItem` | web/src/utils/cart.ts:15 | there is an entry exactly when the key is stored, and it is the stored value |
| `Cart.StringifyRoundTrip` | web/src/utils/cart.ts:15-30 | decoding what `writeCart` stores gives back the written lines |
| `Cart.WriteReadRoundTrip` | web/src/utils/cart.ts:10-31 | after writing an owner's cart, reading that owner's cart gives the lines written |
| `Cart.WriteIsolation` | web/src/utils/cart.ts:27-31 | writing one owner's cart leaves every other owner's cart as it was, guest versus signed-in included |
| `Cart.LocalStorage.SetItem` | web/src/utils/cart.ts:30 | the entry under the key is replaced and every other entry is kept |
| `Cart.ReadCart` | web/src/utils/cart.ts:10-25 | outside a browser the cart is empty; in a browser it is the decoded entry under the owner's key |
| `Cart.WriteCart` | web/src/utils/cart.ts:27-31 | outside a browser storage is untouched; in a browser only the owner's key changes, to the stored lines |
| `Cart.SwitchOwner` | web/src/utils/cart.ts:6-31 | a guest cart and an account cart written one after the other both read back as written, so switching owner never merges carts; storage afterwards holds exactly the two new entries on top of what it held |
| `Http.DecimalText` | web/src/utils/http.ts:19 | an index segment is printed as a non-empty string of decimal digits, with no leading zero: the index 0 prints as exactly `0` |
| `Http.DecimalRoundTrip` | web/src/utils/http.ts:19 | the printed digits of an index denote that index again |
| `Http.PathText` | web/src/utils/http.ts:19 | an empty path gives `""`; a one-segment path gives that segment's text |
| `Http.ToIssues` | web/src/utils/http.ts:14-22 | a nullish value or one without `issues` comes back unchanged; otherwise the result has one flat issue per issue, in order, with the same message and code and the dotted path |
| `Http.ToIssuesEmpty` | web/src/utils/http.ts:15-17 | an empty `issues` array gives an empty list, not the original error |
| `Http.SplitJoin` | web/src/utils/http.ts:19 | splitting a dot-join of dot-free pieces on dots gives the pieces back |
| `Http.PathTextSplits` | web/src/utils/http.ts:19 | splitting the dotted text of a non-empty path whose keys contain no dot gives back its segment texts (not the segments: a key and an index can print alike) |

## Left out

- `badRequest` (web/src/utils/http.ts:4-12) only builds a framework HTTP response, so it is not modelled.
- JSON text, `JSON.parse` and `JSON.stringify` are not modelled. A stored string is represented by the value it parses to. Writing a cart stores exactly its array of lines.
- Numbers are exact reals. IEEE rounding is not modelled. A `qty` of `NaN` or `Infinity` cannot be represented; `JSON.stringify` would write it as `null`, and that line would then be dropped on reading.
- Exceptions thrown by `localStorage` itself, such as a disabled or full storage, are not modelled. `readCart`'s `catch` is modelled only for text that fails to parse (`Malformed`).
- `typeof window === "undefined"` is the boolean parameter `inBrowser` of `ReadCart` and `WriteCart`.
- Cross-tab `storage` events and the cart page's refresh on them are not modelled. They are browser event plumbing.
- The cart page's mutations (add, increment, decrement, remove, clear) are not modelled. They live in UI components, not in the cart utility.
- Object keys that JavaScript treats specially, such as `__proto__`, are not modelled: a JSON object is a plain `map`.
- The dotted path does not determine the path itself. A numeric key and an array index print alike (`Key("0")` and `Index(0)` both give `0`), and the empty path and the path with one empty key both give `""`. Only the segment texts of a non-empty path with dot-free keys are recovered.
- Http.ToIssues: `issues` is modelled only as absent (or falsy) or as an array of issues whose paths are arrays of keys and indices. A truthy `issues` that is not an array, or an issue without a `path` array, makes the source throw a `TypeError` at `.map` or `.join`; the model has no such inputs. The callers only pass validator errors, which always have this shape.
- Validator path segments are object keys or non-negative array indices. Symbol keys are not modelled, since a JSON request body cannot produce them.
- The authentication middleware, the session hook, the navigation bar, the layout, the order-status workflow, order creation, the catalog query and the admin role checks are not part of this model.
