/** The persisted form of the cart. The store writes `JSON.stringify(items)`
    and reads it back with `JSON.parse`; here the text is a stream of lexical
    tokens: each line is its product's seven fields followed by its quantity
    and size, and the list is wrapped in one pair of brackets. `Parse` may
    fail, which is the `catch` branch of the load effect. */
module CartStorage {
  import opened Seqs
  import opened Catalog
  import opened CartLines

  datatype Token = Open | Close | Num(n: int) | Str(s: string)

  /** The number of tokens one line takes. */
  const ItemWidth: nat := 9

  function EncodeProduct(p: Product): (ts: seq<Token>)
    ensures |ts| == 7
  {
    [Num(p.id), Str(p.name), Str(p.brand), Num(p.price), Str(p.image), Str(p.category), Str(p.slug)]
  }

  function EncodeItem(x: CartItem): (ts: seq<Token>)
    ensures |ts| == ItemWidth
    ensures Open !in ts && Close !in ts
  {
    EncodeProduct(x.product) + [Num(x.quantity), Str(x.size)]
  }

  function EncodeItems(items: seq<CartItem>): (ts: seq<Token>)
    ensures |ts| == ItemWidth * |items|
    decreases |items|
  {
    if items == [] then [] else EncodeItem(items[0]) + EncodeItems(items[1..])
  }

  /** `JSON.stringify(items)`. */
  function Serialize(items: seq<CartItem>): (ts: seq<Token>)
    ensures |ts| == ItemWidth * |items| + 2 && ts[0] == Open && ts[|ts| - 1] == Close
  {
    [Open] + EncodeItems(items) + [Close]
  }

  /** Reads one line back from exactly `ItemWidth` tokens. */
  function DecodeItem(ts: seq<Token>): (r: Option<CartItem>)
    requires |ts| == ItemWidth
    ensures r.Some? ==> EncodeItem(r.value) == ts
    ensures r.None? <==> !(ts[0].Num? && ts[1].Str? && ts[2].Str? && ts[3].Num? && ts[4].Str?
                           && ts[5].Str? && ts[6].Str? && ts[7].Num? && ts[8].Str?)
  {
    if ts[0].Num? && ts[1].Str? && ts[2].Str? && ts[3].Num? && ts[4].Str?
       && ts[5].Str? && ts[6].Str? && ts[7].Num? && ts[8].Str?
    then
      Some(CartItem(Product(ts[0].n, ts[1].s, ts[2].s, ts[3].n, ts[4].s, ts[5].s, ts[6].s), ts[7].n, ts[8].s))
    else None
  }

  /** Reads a run of lines; fails on a partial or malformed line. */
  function DecodeItems(ts: seq<Token>): (r: Option<seq<CartItem>>)
    ensures r.Some? ==> EncodeItems(r.value) == ts
    decreases |ts|
  {
    if ts == [] then Some([])
    else if |ts| < ItemWidth then None
    else
      match DecodeItem(ts[..ItemWidth])
      case None => None
      case Some(x) =>
        match DecodeItems(ts[ItemWidth..])
        case None => None
        case Some(rest) =>
          assert ts == ts[..ItemWidth] + ts[ItemWidth..];
          assert ([x] + rest)[1..] == rest;
          Some([x] + rest)
  }

  /** `JSON.parse(stored)`: `None` is the exception the load effect catches.
      Whatever it accepts is exactly what `Serialize` would have written. */
  function Parse(ts: seq<Token>): (r: Option<seq<CartItem>>)
    ensures r.Some? ==> Serialize(r.value) == ts
  {
    if |ts| >= 2 && ts[0] == Open && ts[|ts| - 1] == Close then
      assert ts == [Open] + ts[1..|ts| - 1] + [Close];
      DecodeItems(ts[1..|ts| - 1])
    else None
  }

  lemma {:induction false} DecodeEncodeItems(items: seq<CartItem>)
    ensures DecodeItems(EncodeItems(items)) == Some(items)
    decreases |items|
  {
    if items != [] {
      var ts := EncodeItems(items);
      assert ts[..ItemWidth] == EncodeItem(items[0]);
      assert ts[ItemWidth..] == EncodeItems(items[1..]);
      DecodeEncodeItems(items[1..]);
      assert [items[0]] + items[1..] == items;
    }
  }

  /** Whatever the store writes, it reads back unchanged. */
  lemma ParseSerialize(items: seq<CartItem>)
    ensures Parse(Serialize(items)) == Some(items)
  {
    var ts := Serialize(items);
    assert ts[1..|ts| - 1] == EncodeItems(items);
    DecodeEncodeItems(items);
  }

  /** Reading stored data and writing it back leaves the stored data as it was. */
  lemma SerializeParse(ts: seq<Token>, items: seq<CartItem>)
    requires Parse(ts) == Some(items)
    ensures Serialize(items) == ts
  {
  }

  /** Empty or truncated data is rejected. */
  lemma CorruptDataRejected(ts: seq<Token>)
    requires |ts| >= 2 && ts[0] == Open && ts[|ts| - 1] == Close
    requires (|ts| - 2) % ItemWidth != 0
    ensures Parse(ts) == None
  {
  }
}
