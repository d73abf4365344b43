/** Decoded Soroban values, authorization entries, events and transactions, and the SDK's native view of values. */
module Soroban {
  import opened Wrappers

  const TWO_TO_THE_32 := 0x1_0000_0000
  const TWO_TO_THE_63 := 0x8000_0000_0000_0000
  const TWO_TO_THE_64 := 0x1_0000_0000_0000_0000

  type u32 = n: int | 0 <= n < TWO_TO_THE_32
  type i32 = n: int | -0x8000_0000 <= n < 0x8000_0000
  type u64 = n: int | 0 <= n < TWO_TO_THE_64
  type i64 = n: int | -TWO_TO_THE_63 <= n < TWO_TO_THE_63
  type byte = n: int | 0 <= n < 256

  /**
    Wide stands for the remaining integer types, which the SDK reads as big integers; Other for the rest.
    Addresses are their StrKey text.
   */
  datatype ScVal =
    | Void
    | Bool(b: bool)
    | U32(word: u32)
    | I32(int32: i32)
    | U64(uint64: u64)
    | I64(int64: i64)
    | U128(uhi: u64, ulo: u64)
    | I128(hi: i64, lo: u64)
    | Wide(wide: int)
    | Bytes(blob: Blob)
    | Str(text: string)
    | Symbol(name: string)
    | Address(strkey: string)
    | Vec(items: seq<ScVal>)
    | Map(entries: seq<MapEntry>)
    | Other

  datatype MapEntry = MapEntry(key: ScVal, val: ScVal)

  /** Chosen bytes, or a digest binding a signature payload to a rule selection; the two never coincide. */
  datatype Blob = Raw(octets: seq<byte>) | AuthDigest(payload: SignaturePayload, ruleIds: seq<u32>)

  function BlobLength(b: Blob): nat {
    match b
    case Raw(octets) => |octets|
    case AuthDigest(_, _) => 32
  }

  /** The hashed preimage of one address credential's signature. */
  datatype SignaturePayload = SignaturePayload(network: string, nonce: int, expiration: int, invocation: Invocation)

  datatype Invocation =
    | ContractCall(contract: string, fn: string, args: seq<ScVal>, subInvocations: seq<Invocation>)
    | CreateCall(subInvocations: seq<Invocation>)

  datatype Credentials =
    | SourceAccount
    | AddressCredentials(address: string, nonce: int, expiration: int, signature: ScVal)

  datatype AuthEntry = AuthEntry(credentials: Credentials, root: Invocation)

  datatype EventKind = ContractEvent | SystemEvent | DiagnosticOnly

  datatype DiagnosticEvent =
    | Malformed
    | Event(kind: EventKind, inSuccessfulCall: bool, contractId: Option<string>, topics: seq<ScVal>, data: ScVal)

  datatype HostFunction = InvokeContract(contract: string, fn: string, args: seq<ScVal>) | OtherHostFunction

  datatype Operation =
    | InvokeHostFunction(source: Option<string>, func: HostFunction, auth: seq<AuthEntry>)
    | OtherOperation

  /** A transaction envelope; None where its XDR does not decode. */
  datatype Transaction = Transaction(source: string, fee: string, signatures: nat, operations: seq<Operation>)

  // ---- Native values ----

  datatype Native =
    | NNull
    | NBool(b: bool)
    | NNumber(number: int)
    | NBig(big: int)
    | NString(text: string)
    | NBytes(blob: Blob)
    | NArray(items: seq<Native>)
    | NObject(fields: seq<(Native, Native)>)
    | NOther

  function ToNative(v: ScVal): Native
    decreases v, 1
  {
    match v
    case Void => NNull
    case Bool(b) => NBool(b)
    case U32(n) => NNumber(n)
    case I32(n) => NNumber(n)
    case U64(n) => NBig(n)
    case I64(n) => NBig(n)
    case U128(hi, lo) => NBig(hi * TWO_TO_THE_64 + lo)
    case I128(hi, lo) => NBig(hi * TWO_TO_THE_64 + lo)
    case Wide(n) => NBig(n)
    case Bytes(b) => NBytes(b)
    case Str(s) => NString(s)
    case Symbol(s) => NString(s)
    case Address(a) => NString(a)
    case Vec(items) => NArray(ToNatives(items))
    case Map(entries) => NObject(ToFields(entries))
    case Other => NOther
  }

  function ToNatives(items: seq<ScVal>): (r: seq<Native>)
    ensures |r| == |items|
    decreases items, 0
  {
    if items == [] then [] else [ToNative(items[0])] + ToNatives(items[1..])
  }

  function ToFields(entries: seq<MapEntry>): (r: seq<(Native, Native)>)
    ensures |r| == |entries|
    decreases entries, 0
  {
    if entries == [] then [] else [ToField(entries[0])] + ToFields(entries[1..])
  }

  function ToField(entry: MapEntry): (Native, Native)
    decreases entry, 2
  {
    (ToNative(entry.key), ToNative(entry.val))
  }

  /** A named property of a native object; a repeated key keeps its last value. */
  function Property(n: Native, name: string): Option<Native> {
    if n.NObject? then LastField(n.fields, name) else None
  }

  function LastField(fields: seq<(Native, Native)>, name: string): Option<Native> {
    if fields == [] then None
    else if fields[|fields| - 1].0 == NString(name) then Some(fields[|fields| - 1].1)
    else LastField(fields[..|fields| - 1], name)
  }

  lemma ToNativesAt(items: seq<ScVal>, i: nat)
    requires i < |items|
    ensures ToNatives(items)[i] == ToNative(items[i])
  {
    if i > 0 {
      ToNativesAt(items[1..], i - 1);
    }
  }

  /** Absent and empty optional strings are both falsy. */
  predicate Truthy(s: Option<string>) {
    s.Some? && s.value != ""
  }
}
