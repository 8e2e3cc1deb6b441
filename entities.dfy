/** The domain values the request machinery passes around: addresses, gateways,
    signatories, .NET time values, endorsements and the parameter records that
    the input guards inspect. */
module Entities {
  import opened Wrappers

  type Bytes = seq<bv8>

  /** A network address: realm, shard and account (or file) number. */
  datatype Address = Address(realmNum: int, shardNum: int, accountNum: int)

  /** An account together with the signatory that can authorize it. */
  datatype Account = Account(address: Address, signatory: Signatory)

  /** A gateway node: the node's account address and the URL of its endpoint.
      The URL may be null. */
  datatype Gateway = Gateway(url: Option<string>, node: Address)

  /** Something that can sign: one key, a composite of several signatories, or a
      callback that signs on the caller's behalf. Keys and callbacks are identified
      by opaque handles; signing itself is outside this model. */
  datatype Signatory =
    | KeySigner(key: Bytes)
    | Composite(members: seq<Signatory>)
    | Callback(handle: nat)

  /** A .NET `TimeSpan`, as its count of 100-nanosecond ticks. */
  datatype TimeSpan = TimeSpan(ticks: int)

  /** A .NET `DateTime`, as its count of ticks since 0001-01-01T00:00:00. */
  datatype DateTime = DateTime(ticks: int)

  /** The kinds of key an endorsement can stand for. */
  datatype KeyType = Ed25519 | RSA3072 | ECDSA384 | List

  /** A key requirement: one public key of a given type, or an n-of-m list of
      nested requirements. */
  datatype Endorsement =
    | SingleKey(keyType: KeyType, key: Bytes)
    | KeyList(required: nat, children: seq<Endorsement>)
  {
    /** The `Type` property: the key's type, or `List` for a list. */
    function Type(): KeyType {
      if SingleKey? then keyType else KeyType.List
    }

    /** The `RequiredCount` property: zero for a single key. */
    function RequiredCount(): nat {
      if SingleKey? then 0 else required
    }

    /** The `List` property: empty for a single key. */
    function List(): seq<Endorsement> {
      if SingleKey? then [] else children
    }

    /** The `PublicKey` property: empty for a list. */
    function PublicKey(): Bytes {
      if SingleKey? then key else []
    }
  }

  /** The fields of an account update request that the guards look at. */
  datatype UpdateAccountParams = UpdateAccountParams(
    account: Option<Address>,
    endorsements: Option<Endorsement>,
    sendThresholdCreateRecord: Option<int>,
    receiveThresholdCreateRecord: Option<int>,
    expiration: Option<DateTime>,
    autoRenewPeriod: Option<TimeSpan>)

  /** The fields of a file update request that the guards look at. */
  datatype UpdateFileParams = UpdateFileParams(
    file: Option<Address>,
    endorsements: Option<seq<Endorsement>>,
    expiration: Option<DateTime>,
    contents: Option<Bytes>)

  /** The fields of a file append request that the guards look at. */
  datatype AppendFileParams = AppendFileParams(file: Option<Address>, contents: Bytes)

  /** The fields of an account creation request that the guards look at. */
  datatype CreateAccountParams = CreateAccountParams(publicKey: Bytes, initialBalance: int)

  /** The fields of a file creation request that the guards look at. */
  datatype CreateFileParams = CreateFileParams(endorsements: Option<seq<Endorsement>>, contents: Bytes)
}
