/** The relayer API's JSON form of contract arguments, and the decoder that undoes it. */
module RelayerJson {
  import opened Wrappers
  import opened Decimal
  import opened JsText
  import opened Soroban

  /** JNative is a fallback value that is not of the API's argument form; JDigest the hex text of a symbolic digest. */
  datatype Json =
    | JNumber(n: int)
    | JBool(b: bool)
    | JText(s: string)
    | JDigest(blob: Blob)
    | JList(items: seq<Json>)
    | JObject(fields: seq<Field>)
    | JNative(native: Native)

  datatype Field = Field(name: string, value: Json)

  // ---- Text forms ----

  function PrintInt(n: int): (s: string)
    ensures s != []
  {
    if n < 0 then "-" + Print(-n) else Print(n)
  }

  function ParseInt(s: string): Option<int> {
    if s != [] && s[0] == '-' then Negated(Unsigned(s[1..])) else Unsigned(s)
  }

  lemma ParsePrintNat(n: nat)
    ensures Unsigned(Print(n)) == Some(n)
    ensures Print(n)[0] != '-'
  {
    ParsePrint(n);
    assert IsDigit(Print(n)[0]);
  }

  lemma ParsePrintInt(n: int)
    ensures ParseInt(PrintInt(n)) == Some(n)
  {
    ParsePrintNat(if n < 0 then -n else n);
    if n < 0 {
      assert PrintInt(n)[1..] == Print(-n);
    }
  }

  function HexChar(d: nat): char
    requires d < 16
  {
    if d < 10 then (48 + d) as char else (87 + d) as char
  }

  function HexValue(c: char): Option<nat> {
    if '0' <= c <= '9' then Some(c as int - 48) else if 'a' <= c <= 'f' then Some(c as int - 87) else None
  }

  function Hex(octets: seq<byte>): string {
    if octets == [] then [] else [HexChar(octets[0] / 16), HexChar(octets[0] % 16)] + Hex(octets[1..])
  }

  function Unhex(s: string): Option<seq<byte>> {
    if s == [] then Some([])
    else if |s| == 1 then None
    else
      match (HexValue(s[0]), HexValue(s[1]), Unhex(s[2..]))
      case (Some(high), Some(low), Some(rest)) => Octet(high, low, rest)
      case _ => None
  }

  function Octet(high: nat, low: nat, rest: seq<byte>): Option<seq<byte>> {
    if high < 16 && low < 16 then Some([high * 16 + low] + rest) else None
  }

  lemma {:induction false} UnhexHex(octets: seq<byte>)
    ensures Unhex(Hex(octets)) == Some(octets)
    decreases |octets|
  {
    if octets != [] {
      UnhexHex(octets[1..]);
      assert Hex(octets)[2..] == Hex(octets[1..]);
      assert octets == [octets[0]] + octets[1..];
    }
  }

  // ---- Encoding ----

  function Tagged(name: string, value: Json): Json {
    JObject([Field(name, value)])
  }

  function Words(hi: int, lo: int): Json {
    JObject([Field("hi", JText(PrintInt(hi))), Field("lo", JText(PrintInt(lo)))])
  }

  function Encode(v: ScVal): Json
    decreases v, 1
  {
    match v
    case Address(a) => Tagged("address", JText(a))
    case I128(hi, lo) => Tagged("i128", Words(hi, lo))
    case U128(hi, lo) => Tagged("u128", Words(hi, lo))
    case I64(n) => Tagged("i64", JText(PrintInt(n)))
    case U64(n) => Tagged("u64", JText(PrintInt(n)))
    case I32(n) => Tagged("i32", JNumber(n))
    case U32(n) => Tagged("u32", JNumber(n))
    case Bool(b) => Tagged("bool", JBool(b))
    case Str(s) => Tagged("string", JText(s))
    case Symbol(s) => Tagged("symbol", JText(s))
    case Bytes(b) => Tagged("bytes", if b.Raw? then JText(Hex(b.octets)) else JDigest(b))
    case Vec(items) => Tagged("vec", JList(EncodeAll(items)))
    case Map(entries) => Tagged("map", JList(EncodeEntries(entries)))
    case _ => JNative(ToNative(v))
  }

  function EncodeAll(items: seq<ScVal>): (r: seq<Json>)
    ensures |r| == |items|
    decreases items, 0
  {
    if items == [] then [] else [Encode(items[0])] + EncodeAll(items[1..])
  }

  function EncodeEntries(entries: seq<MapEntry>): (r: seq<Json>)
    ensures |r| == |entries|
    decreases entries, 0
  {
    if entries == [] then [] else [EncodeEntry(entries[0])] + EncodeEntries(entries[1..])
  }

  function EncodeEntry(entry: MapEntry): Json
    decreases entry, 2
  {
    JObject([Field("key", Encode(entry.key)), Field("val", Encode(entry.val))])
  }

  // ---- Decoding ----

  function Ranged(n: Option<int>, low: int, high: int): Option<int> {
    if n.Some? && low <= n.value < high then n else None
  }

  function TextInt(j: Json): Option<int> {
    if j.JText? then ParseInt(j.s) else None
  }

  /** The high and low words of a 128-bit object. */
  function WordsOf(j: Json): Option<(int, int)> {
    if !j.JObject? || |j.fields| != 2 || j.fields[0].name != "hi" || j.fields[1].name != "lo" then None
    else
      match (TextInt(j.fields[0].value), TextInt(j.fields[1].value))
      case (Some(hi), Some(lo)) => Some((hi, lo))
      case _ => None
  }

  function DecodeScalar(name: string, j: Json): Option<ScVal> {
    match name
    case "address" => if j.JText? then Some(Address(j.s)) else None
    case "string" => if j.JText? then Some(Str(j.s)) else None
    case "symbol" => if j.JText? then Some(Symbol(j.s)) else None
    case "bool" => if j.JBool? then Some(Bool(j.b)) else None
    case "i32" => if j.JNumber? && -0x8000_0000 <= j.n < 0x8000_0000 then Some(I32(j.n)) else None
    case "u32" => if j.JNumber? && 0 <= j.n < TWO_TO_THE_32 then Some(U32(j.n)) else None
    case "i64" => DecodeI64(Ranged(TextInt(j), -TWO_TO_THE_63, TWO_TO_THE_63))
    case "u64" => DecodeU64(Ranged(TextInt(j), 0, TWO_TO_THE_64))
    case "i128" => DecodeWords(true, WordsOf(j))
    case "u128" => DecodeWords(false, WordsOf(j))
    case "bytes" => DecodeBytes(j)
    case _ => None
  }

  function DecodeI64(n: Option<int>): Option<ScVal> {
    if n.Some? && -TWO_TO_THE_63 <= n.value < TWO_TO_THE_63 then Some(I64(n.value)) else None
  }

  function DecodeU64(n: Option<int>): Option<ScVal> {
    if n.Some? && 0 <= n.value < TWO_TO_THE_64 then Some(U64(n.value)) else None
  }

  function DecodeWords(signed: bool, w: Option<(int, int)>): Option<ScVal> {
    if w.None? || !(0 <= w.value.1 < TWO_TO_THE_64) then None
    else if signed && -TWO_TO_THE_63 <= w.value.0 < TWO_TO_THE_63 then Some(I128(w.value.0, w.value.1))
    else if !signed && 0 <= w.value.0 < TWO_TO_THE_64 then Some(U128(w.value.0, w.value.1))
    else None
  }

  function DecodeBytes(j: Json): Option<ScVal> {
    match j
    case JDigest(blob) => Some(Bytes(blob))
    case JText(s) => (match Unhex(s) case Some(octets) => Some(Bytes(Raw(octets))) case None => None)
    case _ => None
  }

  function Decode(j: Json): Option<ScVal>
    decreases j, 1
  {
    if !j.JObject? || |j.fields| != 1 then None
    else
      var f := j.fields[0];
      if f.name == "vec" && f.value.JList? then
        match DecodeAll(f.value.items) case Some(items) => Some(Vec(items)) case None => None
      else if f.name == "map" && f.value.JList? then
        match DecodeEntries(f.value.items) case Some(entries) => Some(Map(entries)) case None => None
      else DecodeScalar(f.name, f.value)
  }

  function DecodeAll(items: seq<Json>): Option<seq<ScVal>>
    decreases items, 0
  {
    if items == [] then Some([])
    else
      match (Decode(items[0]), DecodeAll(items[1..]))
      case (Some(v), Some(rest)) => Some([v] + rest)
      case _ => None
  }

  function DecodeEntries(items: seq<Json>): Option<seq<MapEntry>>
    decreases items, 0
  {
    if items == [] then Some([])
    else
      match (DecodeEntry(items[0]), DecodeEntries(items[1..]))
      case (Some(e), Some(rest)) => Some([e] + rest)
      case _ => None
  }

  function DecodeEntry(j: Json): Option<MapEntry>
    decreases j, 0
  {
    if !j.JObject? || |j.fields| != 2 || j.fields[0].name != "key" || j.fields[1].name != "val" then None
    else
      match (Decode(j.fields[0].value), Decode(j.fields[1].value))
      case (Some(k), Some(v)) => Some(MapEntry(k, v))
      case _ => None
  }

  // ---- Round trip ----

  /** Built from the types the encoder names; void, the wider integers and the rest fall back to native values. */
  predicate Supported(v: ScVal)
    decreases v, 1
  {
    match v
    case Void => false
    case Wide(_) => false
    case Other => false
    case Vec(items) => AllSupported(items)
    case Map(entries) => EntriesSupported(entries)
    case _ => true
  }

  predicate AllSupported(items: seq<ScVal>)
    decreases items, 0
  {
    items != [] ==> Supported(items[0]) && AllSupported(items[1..])
  }

  predicate EntriesSupported(entries: seq<MapEntry>)
    decreases entries, 0
  {
    entries != [] ==> EntrySupported(entries[0]) && EntriesSupported(entries[1..])
  }

  predicate EntrySupported(entry: MapEntry)
    decreases entry, 2
  {
    Supported(entry.key) && Supported(entry.val)
  }

  lemma WordsRoundTrip(hi: int, lo: int)
    ensures WordsOf(Words(hi, lo)) == Some((hi, lo))
  {
    ParsePrintInt(hi);
    ParsePrintInt(lo);
  }

  lemma TaggedScalar(name: string, j: Json)
    requires name != "vec" && name != "map"
    ensures Decode(Tagged(name, j)) == DecodeScalar(name, j)
  {
  }

  lemma SignedWordsRoundTrip(hi: i64, lo: u64)
    ensures Decode(Tagged("i128", Words(hi, lo))) == Some(I128(hi, lo))
  {
    TaggedScalar("i128", Words(hi, lo));
    WordsRoundTrip(hi, lo);
  }

  lemma UnsignedWordsRoundTrip(hi: u64, lo: u64)
    ensures Decode(Tagged("u128", Words(hi, lo))) == Some(U128(hi, lo))
  {
    TaggedScalar("u128", Words(hi, lo));
    WordsRoundTrip(hi, lo);
  }

  lemma SignedRoundTrip(n: i64)
    ensures Decode(Tagged("i64", JText(PrintInt(n)))) == Some(I64(n))
  {
    TaggedScalar("i64", JText(PrintInt(n)));
    ParsePrintInt(n);
  }

  lemma UnsignedRoundTrip(n: u64)
    ensures Decode(Tagged("u64", JText(PrintInt(n)))) == Some(U64(n))
  {
    TaggedScalar("u64", JText(PrintInt(n)));
    ParsePrintInt(n);
  }

  lemma WideRoundTrip(v: ScVal)
    requires v.I128? || v.U128? || v.I64? || v.U64?
    ensures Decode(Encode(v)) == Some(v)
  {
    match v
    case I128(hi, lo) => SignedWordsRoundTrip(hi, lo);
    case U128(hi, lo) => UnsignedWordsRoundTrip(hi, lo);
    case I64(n) => SignedRoundTrip(n);
    case U64(n) => UnsignedRoundTrip(n);
  }

  lemma BytesRoundTrip(b: Blob)
    ensures Decode(Encode(Bytes(b))) == Some(Bytes(b))
  {
    TaggedScalar("bytes", Encode(Bytes(b)).fields[0].value);
    if b.Raw? {
      UnhexHex(b.octets);
    }
  }

  lemma ScalarRoundTrip(v: ScVal)
    requires Supported(v) && !v.Vec? && !v.Map?
    ensures Decode(Encode(v)) == Some(v)
  {
    match v
    case Bytes(b) => BytesRoundTrip(b);
    case Address(a) => TaggedScalar("address", JText(a));
    case Str(s) => TaggedScalar("string", JText(s));
    case Symbol(s) => TaggedScalar("symbol", JText(s));
    case Bool(b) => TaggedScalar("bool", JBool(b));
    case I32(n) => TaggedScalar("i32", JNumber(n));
    case U32(n) => TaggedScalar("u32", JNumber(n));
    case _ => WideRoundTrip(v);
  }

  /** Decoding undoes the encoding exactly on the supported values, and fails on every other one. */
  lemma {:induction false} DecodeEncode(v: ScVal)
    ensures Decode(Encode(v)) == if Supported(v) then Some(v) else None
    decreases v, 1
  {
    match v
    case Vec(items) => DecodeEncodeAll(items);
    case Map(entries) => DecodeEncodeEntries(entries);
    case _ => if Supported(v) { ScalarRoundTrip(v); }
  }

  lemma {:induction false} DecodeEncodeAll(items: seq<ScVal>)
    ensures DecodeAll(EncodeAll(items)) == if AllSupported(items) then Some(items) else None
    decreases items, 0
  {
    if items != [] {
      DecodeEncode(items[0]);
      DecodeEncodeAll(items[1..]);
      assert EncodeAll(items)[1..] == EncodeAll(items[1..]);
      assert items == [items[0]] + items[1..];
    }
  }

  lemma {:induction false} DecodeEncodeEntries(entries: seq<MapEntry>)
    ensures DecodeEntries(EncodeEntries(entries)) == if EntriesSupported(entries) then Some(entries) else None
    decreases entries, 0
  {
    if entries != [] {
      DecodeEncodeEntry(entries[0]);
      DecodeEncodeEntries(entries[1..]);
      assert EncodeEntries(entries)[1..] == EncodeEntries(entries[1..]);
      assert entries == [entries[0]] + entries[1..];
    }
  }

  lemma {:induction false} DecodeEncodeEntry(entry: MapEntry)
    ensures DecodeEntry(EncodeEntry(entry)) == if EntrySupported(entry) then Some(entry) else None
    decreases entry, 2
  {
    DecodeEncode(entry.key);
    DecodeEncode(entry.val);
  }

  /** Distinct supported values never share a JSON form. */
  lemma EncodeInjective(v: ScVal, w: ScVal)
    requires Supported(v) && Encode(v) == Encode(w)
    ensures v == w
  {
    DecodeEncode(v);
    DecodeEncode(w);
  }
}
