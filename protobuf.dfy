/** Conversions between the library's values and the network's wire messages
    (Protobuf.cs). The messages are modelled as datatypes with the fields the
    conversions touch; their byte encoding is not modelled. */
module Wire {
  import opened Wrappers
  import opened Entities

  datatype AccountID = AccountID(realmNum: int, shardNum: int, accountNum: int)
  datatype FileID = FileID(realmNum: int, shardNum: int, fileNum: int)

  /** A whole number of seconds. */
  datatype Duration = Duration(seconds: int)

  /** Seconds and nanoseconds since 1970-01-01T00:00:00Z. */
  datatype Timestamp = Timestamp(seconds: int, nanos: int)

  datatype TransactionID = TransactionID(accountId: AccountID, validStart: Timestamp)

  /** The library's handle on a transaction id. The source keeps the serialized
      message; the model keeps the message itself. */
  datatype TxId = TxId(id: TransactionID)

  datatype AccountAmount = AccountAmount(accountId: AccountID, amount: int)

  /** The response codes the core distinguishes; every other code is `OtherCode`. */
  datatype Code = Ok | InvalidTransactionStart | Busy | ReceiptNotFound | Unknown | OtherCode(number: nat)

  /** A wire key, one case per `Key.KeyOneofCase`. */
  datatype Key =
    | KeyNotSet
    | ContractKey(contract: AccountID)
    | Ed25519Key(bytes: Bytes)
    | Rsa3072Key(bytes: Bytes)
    | Ecdsa384Key(bytes: Bytes)
    | ThresholdKey(threshold: nat, keys: seq<Key>)
    | KeyListKey(keys: seq<Key>)

  /** The `Endorsements` object built from encoded public keys, in order. */
  datatype KeySet = KeySet(keys: seq<Bytes>)

  datatype ConversionError = DateTimeOutOfRange | NotSupported(keyCase: Key)

  const TicksPerSecond: int := 10_000_000
  const NanosPerTick: int := 1_000_000_000 / TicksPerSecond
  /** `DateTime(1970, 1, 1)` in ticks. */
  const EpochTicks: int := 621_355_968_000_000_000
  /** `DateTime.MaxValue` in ticks. */
  const MaxDateTimeTicks: int := 3_155_378_975_999_999_999

  /** The SubjectPublicKeyInfo header of an Ed25519 public key (RFC 8410,
      section 4) that `Keys.publicKeyPrefix` holds. */
  const Ed25519PublicKeyPrefix: Bytes :=
    [0x30, 0x2A, 0x30, 0x05, 0x06, 0x03, 0x2B, 0x65, 0x70, 0x03, 0x21, 0x00]

  /** Integer division rounding toward zero, as C#'s `/` and casts do. */
  function TruncDiv(a: int, b: int): int
    requires b > 0
  {
    if a >= 0 then a / b else -((-a) / b)
  }

  predicate ValidDateTime(d: DateTime) {
    0 <= d.ticks <= MaxDateTimeTicks
  }

  function ToAccountID(address: Address): (id: AccountID)
    ensures id.realmNum == address.realmNum && id.shardNum == address.shardNum
    ensures id.accountNum == address.accountNum
  {
    AccountID(address.realmNum, address.shardNum, address.accountNum)
  }

  function FromAccountID(id: AccountID): (address: Address)
    ensures ToAccountID(address) == id
  {
    Address(id.realmNum, id.shardNum, id.accountNum)
  }

  lemma AccountIDRoundTrip(address: Address, id: AccountID)
    ensures FromAccountID(ToAccountID(address)) == address
    ensures ToAccountID(FromAccountID(id)) == id
  {
  }

  /** A file address uses the account number slot for the file number. */
  function ToFileId(file: Address): (id: FileID)
    ensures id.realmNum == file.realmNum && id.shardNum == file.shardNum
    ensures id.fileNum == file.accountNum
  {
    FileID(file.realmNum, file.shardNum, file.accountNum)
  }

  function FromFileID(id: FileID): (file: Address)
    ensures ToFileId(file) == id
  {
    Address(id.realmNum, id.shardNum, id.fileNum)
  }

  lemma FileIDRoundTrip(file: Address, id: FileID)
    ensures FromFileID(ToFileId(file)) == file
    ensures ToFileId(FromFileID(id)) == id
  {
  }

  function FromTransactionId(id: TransactionID): (t: TxId)
    ensures ToTransactionID(t) == id
  {
    TxId(id)
  }

  function ToTransactionID(t: TxId): TransactionID {
    t.id
  }

  /** Whole seconds of the span, the fraction dropped toward zero. */
  function ToDuration(span: TimeSpan): (d: Duration)
    ensures d.seconds * TicksPerSecond <= span.ticks < (d.seconds + 1) * TicksPerSecond || span.ticks < 0
    ensures (d.seconds - 1) * TicksPerSecond < span.ticks <= d.seconds * TicksPerSecond || span.ticks >= 0
  {
    Duration(TruncDiv(span.ticks, TicksPerSecond))
  }

  function FromDuration(d: Duration): (span: TimeSpan)
    ensures span.ticks % TicksPerSecond == 0
    ensures ToDuration(span) == d
  {
    TimeSpan(d.seconds * TicksPerSecond)
  }

  /** Converting to the wire and back drops only the sub-second part, and the
      dropped part has the span's sign. */
  lemma DurationTruncates(span: TimeSpan)
    ensures var back := FromDuration(ToDuration(span));
      && -TicksPerSecond < span.ticks - back.ticks < TicksPerSecond
      && (span.ticks >= 0 ==> 0 <= back.ticks <= span.ticks)
      && (span.ticks < 0 ==> span.ticks <= back.ticks <= 0)
  {
  }

  function ToTimestamp(d: DateTime): (t: Timestamp)
    ensures d.ticks >= EpochTicks ==> 0 <= t.nanos < 1_000_000_000 && t.nanos % 100 == 0
    ensures d.ticks < EpochTicks ==> -1_000_000_000 < t.nanos <= 0 && t.nanos % 100 == 0
  {
    var span := d.ticks - EpochTicks;
    var seconds := TruncDiv(span, TicksPerSecond);
    Timestamp(seconds, (span - seconds * TicksPerSecond) * NanosPerTick)
  }

  /** `EPOCH.AddTicks`, which throws when the result leaves the `DateTime` range. */
  function FromTimestamp(t: Timestamp): (r: Result<DateTime, ConversionError>)
    ensures r.Success? ==> ValidDateTime(r.value)
  {
    var ticks := EpochTicks + t.seconds * TicksPerSecond + TruncDiv(t.nanos, NanosPerTick);
    if 0 <= ticks <= MaxDateTimeTicks then Success(DateTime(ticks)) else Failure(DateTimeOutOfRange)
  }

  /** Every representable instant survives the trip to the wire and back. */
  lemma TimestampRoundTrip(d: DateTime)
    requires ValidDateTime(d)
    ensures FromTimestamp(ToTimestamp(d)) == Success(d)
  {
    var span := d.ticks - EpochTicks;
    var seconds := TruncDiv(span, TicksPerSecond);
    var rest := span - seconds * TicksPerSecond;
    assert TruncDiv(rest * NanosPerTick, NanosPerTick) == rest;
  }

  /** A normalized timestamp at or after the epoch, at tick precision, survives the
      trip to a `DateTime` and back. */
  lemma TimestampRoundTripFromWire(t: Timestamp)
    requires 0 <= t.seconds && 0 <= t.nanos < 1_000_000_000 && t.nanos % 100 == 0
    requires EpochTicks + t.seconds * TicksPerSecond + t.nanos / 100 <= MaxDateTimeTicks
    ensures FromTimestamp(t).Success? && ToTimestamp(FromTimestamp(t).value) == t
  {
    var span := t.seconds * TicksPerSecond + t.nanos / 100;
    assert TruncDiv(span, TicksPerSecond) == t.seconds;
  }

  /** The sum of the amounts listed for `address`, in list order. */
  function TotalFor(transfers: seq<AccountAmount>, address: Address): int {
    if transfers == [] then 0
    else
      var last := transfers[|transfers| - 1];
      TotalFor(transfers[..|transfers| - 1], address) + (if FromAccountID(last.accountId) == address then last.amount else 0)
  }

  /** Every address named in a transfer list, each with the sum of its entries;
      an address whose entries cancel out stays in the result with total 0. */
  method FromTransferList(transfers: seq<AccountAmount>) returns (totals: map<Address, int>)
    ensures totals.Keys == set i | 0 <= i < |transfers| :: FromAccountID(transfers[i].accountId)
    ensures forall a :: a in totals ==> totals[a] == TotalFor(transfers, a)
  {
    totals := map[];
    for k := 0 to |transfers|
      invariant totals.Keys == set i | 0 <= i < k :: FromAccountID(transfers[i].accountId)
      invariant forall a :: a in totals ==> totals[a] == TotalFor(transfers[..k], a)
    {
      var account := FromAccountID(transfers[k].accountId);
      var amount := if account in totals then totals[account] else 0;
      assert transfers[..k + 1][..k] == transfers[..k];
      assert account !in totals ==> TotalFor(transfers[..k], account) == 0 by {
        if account !in totals { NotListedTotalsZero(transfers[..k], account); }
      }
      totals := totals[account := amount + transfers[k].amount];
    }
    assert transfers[..|transfers|] == transfers;
  }

  lemma {:induction false} NotListedTotalsZero(transfers: seq<AccountAmount>, address: Address)
    requires forall i :: 0 <= i < |transfers| ==> FromAccountID(transfers[i].accountId) != address
    ensures TotalFor(transfers, address) == 0
  {
    if transfers != [] {
      NotListedTotalsZero(transfers[..|transfers| - 1], address);
    }
  }

  /** The encoded Ed25519 keys of a key list, in order; other key cases, nested
      lists included, contribute nothing. */
  function Ed25519Entries(keys: seq<Key>): seq<Bytes> {
    if keys == [] then []
    else
      var last := keys[|keys| - 1];
      Ed25519Entries(keys[..|keys| - 1]) + (if last.Ed25519Key? then [Ed25519PublicKeyPrefix + last.bytes] else [])
  }

  /** How many entries of `keys` are Ed25519 keys. */
  function CountEd25519(keys: seq<Key>): nat {
    if keys == [] then 0
    else CountEd25519(keys[..|keys| - 1]) + (if keys[|keys| - 1].Ed25519Key? then 1 else 0)
  }

  /** `Ed25519Entries` has one entry per Ed25519 key, and the key at position `i`
      lands at the position given by the Ed25519 keys before it. */
  lemma {:induction false} Ed25519EntriesPositions(keys: seq<Key>)
    ensures |Ed25519Entries(keys)| == CountEd25519(keys) <= |keys|
    ensures forall i :: 0 <= i < |keys| && keys[i].Ed25519Key? ==>
      CountEd25519(keys[..i]) < CountEd25519(keys) &&
      Ed25519Entries(keys)[CountEd25519(keys[..i])] == Ed25519PublicKeyPrefix + keys[i].bytes
  {
    if keys != [] {
      var init := keys[..|keys| - 1];
      Ed25519EntriesPositions(init);
      forall i | 0 <= i < |keys| && keys[i].Ed25519Key?
        ensures CountEd25519(keys[..i]) < CountEd25519(keys)
        ensures Ed25519Entries(keys)[CountEd25519(keys[..i])] == Ed25519PublicKeyPrefix + keys[i].bytes
      {
        if i < |keys| - 1 {
          assert init[..i] == keys[..i];
        } else {
          assert keys[..i] == init;
        }
      }
    }
  }

  /** Every encoded entry comes from an Ed25519 key of the list. */
  lemma {:induction false} Ed25519EntriesSources(keys: seq<Key>, j: nat)
    requires j < |Ed25519Entries(keys)|
    ensures exists i :: 0 <= i < |keys| && keys[i].Ed25519Key? && Ed25519Entries(keys)[j] == Ed25519PublicKeyPrefix + keys[i].bytes
  {
    var init := keys[..|keys| - 1];
    if j < |Ed25519Entries(init)| {
      Ed25519EntriesSources(init, j);
      var i :| 0 <= i < |init| && init[i].Ed25519Key? && Ed25519Entries(init)[j] == Ed25519PublicKeyPrefix + init[i].bytes;
      assert keys[i] == init[i];
    } else {
      assert keys[|keys| - 1].Ed25519Key?;
    }
  }

  method FromPublicKeyList(keys: seq<Key>) returns (r: KeySet)
    ensures r.keys == Ed25519Entries(keys)
  {
    var publicKeys: seq<Bytes> := [];
    for k := 0 to |keys|
      invariant publicKeys == Ed25519Entries(keys[..k])
    {
      assert keys[..k + 1][..k] == keys[..k];
      if keys[k].Ed25519Key? {
        publicKeys := publicKeys + [Ed25519PublicKeyPrefix + keys[k].bytes];
      }
    }
    assert keys[..|keys|] == keys;
    r := KeySet(publicKeys);
  }

  /** An Ed25519 key becomes a one-key set, a key list its Ed25519 members; any
      other key case is not supported. */
  method FromPublicKey(key: Key) returns (r: Result<KeySet, ConversionError>)
    ensures key.Ed25519Key? ==> r == Success(KeySet([Ed25519PublicKeyPrefix + key.bytes]))
    ensures key.KeyListKey? ==> r == Success(KeySet(Ed25519Entries(key.keys)))
    ensures !key.Ed25519Key? && !key.KeyListKey? ==> r == Failure(NotSupported(key))
  {
    match key
    case Ed25519Key(bytes) =>
      r := Success(KeySet([Ed25519PublicKeyPrefix + bytes]));
    case KeyListKey(keys) =>
      var listed := FromPublicKeyList(keys);
      r := Success(listed);
    case _ =>
      r := Failure(NotSupported(key));
  }

  /** The receipt and record messages, with the fields the library copies. */
  datatype ProtoReceipt = ProtoReceipt(status: Code)
  datatype ProtoRecord = ProtoRecord(
    transactionHash: Option<Bytes>,
    consensusTimestamp: Option<Timestamp>,
    memo: string,
    transactionFee: int)

  /** The library's receipt object, whose properties the fill methods assign. */
  class TransactionReceipt {
    var id: Option<TxId>
    var status: Code

    constructor()
      ensures id == None && status == Ok
    {
      id := None;
      status := Ok;
    }
  }

  /** The library's record object, whose properties the fill methods assign. */
  class TransactionRecord {
    var id: Option<TxId>
    var status: Code
    var hash: Option<Bytes>
    var concensus: Option<DateTime>
    var memo: Option<string>
    var fee: int

    constructor()
      ensures id == None && status == Ok && hash == None && concensus == None && memo == None && fee == 0
    {
      id := None;
      status := Ok;
      hash := None;
      concensus := None;
      memo := None;
      fee := 0;
    }
  }

  method FillReceiptProperties(transactionId: TransactionID, receipt: ProtoReceipt, result: TransactionReceipt)
    modifies result
    ensures result.id == Some(FromTransactionId(transactionId))
    ensures result.status == receipt.status
  {
    result.id := Some(FromTransactionId(transactionId));
    result.status := receipt.status;
  }

  /** Assigns the record's properties in source order. Converting the consensus
      time can throw; then `ok` is false and the properties after it keep their
      old values. */
  method FillRecordProperties(transactionId: TransactionID, receipt: ProtoReceipt, record: ProtoRecord, result: TransactionRecord)
    returns (ok: bool)
    modifies result
    ensures result.id == Some(FromTransactionId(transactionId))
    ensures result.status == receipt.status
    ensures result.hash == record.transactionHash
    ensures ok <==> record.consensusTimestamp.None? || FromTimestamp(record.consensusTimestamp.value).Success?
    ensures ok ==> (result.concensus.None? <==> record.consensusTimestamp.None?)
    ensures ok && record.consensusTimestamp.Some? ==>
      result.concensus == Some(FromTimestamp(record.consensusTimestamp.value).value)
    ensures ok ==> result.memo == Some(record.memo) && result.fee == record.transactionFee
    ensures !ok ==> result.concensus == old(result.concensus) && result.memo == old(result.memo) && result.fee == old(result.fee)
  {
    result.id := Some(FromTransactionId(transactionId));
    result.status := receipt.status;
    result.hash := record.transactionHash;
    if record.consensusTimestamp.None? {
      result.concensus := None;
    } else {
      var converted := FromTimestamp(record.consensusTimestamp.value);
      if converted.Failure? {
        return false;
      }
      result.concensus := Some(converted.value);
    }
    result.memo := Some(record.memo);
    result.fee := record.transactionFee;
    ok := true;
  }
}
