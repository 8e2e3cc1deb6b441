/** The configuration surface of a client context (GossipContextStack.cs): twelve
    named properties stored under their own names in the context's frame, the
    check that accepts exactly those names, and the gateway URL a channel is
    opened to. */
module Context {
  import opened Wrappers
  import E = Entities
  import W = Wire
  import Text

  /** The twelve configurable properties. */
  datatype Property =
    | Gateway | Payer | Signatory | FeeLimit | TransactionDuration | RetryCount
    | RetryDelay | Memo | AdjustForLocalClockDrift | Transaction
    | OnSendingRequest | OnResponseReceived

  /** The name each property is stored under (its `nameof`). */
  function Name(p: Property): string {
    match p
    case Gateway => "Gateway"
    case Payer => "Payer"
    case Signatory => "Signatory"
    case FeeLimit => "FeeLimit"
    case TransactionDuration => "TransactionDuration"
    case RetryCount => "RetryCount"
    case RetryDelay => "RetryDelay"
    case Memo => "Memo"
    case AdjustForLocalClockDrift => "AdjustForLocalClockDrift"
    case Transaction => "Transaction"
    case OnSendingRequest => "OnSendingRequest"
    case OnResponseReceived => "OnResponseReceived"
  }

  /** The switch that decides which names the context may store. */
  predicate IsValidPropertyName(name: string) {
    match name
    case "Gateway" => true
    case "Payer" => true
    case "Signatory" => true
    case "FeeLimit" => true
    case "RetryCount" => true
    case "RetryDelay" => true
    case "TransactionDuration" => true
    case "Memo" => true
    case "AdjustForLocalClockDrift" => true
    case "Transaction" => true
    case "OnSendingRequest" => true
    case "OnResponseReceived" => true
    case _ => false
  }

  /** Exactly the names of the twelve properties are valid. */
  lemma ValidNamesAreExactlyPropertyNames(name: string)
    ensures IsValidPropertyName(name) <==> exists p :: Name(p) == name
  {
    if IsValidPropertyName(name) {
      var p :=
        if name == "Gateway" then Gateway
        else if name == "Payer" then Payer
        else if name == "Signatory" then Signatory
        else if name == "FeeLimit" then FeeLimit
        else if name == "RetryCount" then RetryCount
        else if name == "RetryDelay" then RetryDelay
        else if name == "TransactionDuration" then TransactionDuration
        else if name == "Memo" then Memo
        else if name == "AdjustForLocalClockDrift" then AdjustForLocalClockDrift
        else if name == "Transaction" then Transaction
        else if name == "OnSendingRequest" then OnSendingRequest
        else OnResponseReceived;
      assert Name(p) == name;
    }
  }

  /** Different properties are stored under different names. */
  lemma NamesAreDistinct(p: Property, q: Property)
    ensures Name(p) == Name(q) <==> p == q
  {
    if p != q {
      assert Name(p) != Name(q) by {
        if |Name(p)| == |Name(q)| {
          assert Name(p)[0] != Name(q)[0] || Name(p)[1] != Name(q)[1] || Name(p)[5] != Name(q)[5];
        }
      }
    }
  }

  /** A stored value; callbacks are opaque handles. */
  datatype Value =
    | GatewayValue(gateway: E.Gateway)
    | AddressValue(address: E.Address)
    | SignatoryValue(signatory: E.Signatory)
    | LongValue(amount: int)
    | IntValue(number: int)
    | TimeSpanValue(span: E.TimeSpan)
    | StringValue(str: string)
    | BoolValue(flag: bool)
    | TxIdValue(txId: W.TxId)
    | HandlerValue(handle: nat)

  /** The value shape each property's accessor stores and reads back. */
  predicate Fits(p: Property, v: Value) {
    match p
    case Gateway => v.GatewayValue?
    case Payer => v.AddressValue?
    case Signatory => v.SignatoryValue?
    case FeeLimit => v.LongValue?
    case TransactionDuration => v.TimeSpanValue?
    case RetryCount => v.IntValue?
    case RetryDelay => v.TimeSpanValue?
    case Memo => v.StringValue?
    case AdjustForLocalClockDrift => v.BoolValue?
    case Transaction => v.TxIdValue?
    case OnSendingRequest => v.HandlerValue?
    case OnResponseReceived => v.HandlerValue?
  }

  /** What the accessor of `p` reads from a frame's store: the entry under its
      name, nothing when there is none. */
  function Stored(store: map<string, Option<Value>>, p: Property): Option<Value> {
    if Name(p) in store then store[Name(p)] else None
  }

  /** Writing one property leaves every other property as it was. */
  lemma PropertiesAreIndependent(store: map<string, Option<Value>>, p: Property, v: Option<Value>, q: Property)
    ensures Stored(store[Name(p) := v], q) == if p == q then v else Stored(store, q)
  {
    NamesAreDistinct(p, q);
  }

  /** The settings a request is made with, as read through the typed properties.
      An unset value-typed property reads as its type's default. */
  datatype Settings = Settings(
    gateway: Option<E.Gateway>,
    payer: Option<E.Address>,
    signatory: Option<E.Signatory>,
    feeLimit: int,
    transactionDuration: E.TimeSpan,
    retryCount: int,
    retryDelay: E.TimeSpan,
    memo: Option<string>,
    adjustForLocalClockDrift: bool,
    transaction: Option<W.TxId>,
    onSendingRequest: Option<nat>,
    onResponseReceived: Option<nat>)

  /** The typed getter of `p` applied to a set of settings, as a stored value:
      a reference-typed property that is null reads as nothing, a value-typed
      one always reads as a value. */
  function Field(s: Settings, p: Property): Option<Value> {
    match p
    case Gateway => if s.gateway.Some? then Some(GatewayValue(s.gateway.value)) else None
    case Payer => if s.payer.Some? then Some(AddressValue(s.payer.value)) else None
    case Signatory => if s.signatory.Some? then Some(SignatoryValue(s.signatory.value)) else None
    case FeeLimit => Some(LongValue(s.feeLimit))
    case TransactionDuration => Some(TimeSpanValue(s.transactionDuration))
    case RetryCount => Some(IntValue(s.retryCount))
    case RetryDelay => Some(TimeSpanValue(s.retryDelay))
    case Memo => if s.memo.Some? then Some(StringValue(s.memo.value)) else None
    case AdjustForLocalClockDrift => Some(BoolValue(s.adjustForLocalClockDrift))
    case Transaction => if s.transaction.Some? then Some(TxIdValue(s.transaction.value)) else None
    case OnSendingRequest => if s.onSendingRequest.Some? then Some(HandlerValue(s.onSendingRequest.value)) else None
    case OnResponseReceived => if s.onResponseReceived.Some? then Some(HandlerValue(s.onResponseReceived.value)) else None
  }

  /** What the getter of `p` returns when nothing of its type is stored:
      null for a reference type, the type's default for a value type. */
  function Default(p: Property): Option<Value> {
    match p
    case FeeLimit => Some(LongValue(0))
    case TransactionDuration => Some(TimeSpanValue(E.TimeSpan(0)))
    case RetryCount => Some(IntValue(0))
    case RetryDelay => Some(TimeSpanValue(E.TimeSpan(0)))
    case AdjustForLocalClockDrift => Some(BoolValue(false))
    case _ => None
  }

  /** What a getter makes of a stored entry: the entry when it has the
      property's type, the default otherwise. */
  function Typed(p: Property, stored: Option<Value>): Option<Value> {
    if stored.Some? && Fits(p, stored.value) then stored else Default(p)
  }

  /** The settings the typed getters read from a frame's store. An unset
      reference-typed property reads as null and an unset value-typed one as
      its type's default. */
  function SettingsOf(store: map<string, Option<Value>>): Settings {
    Settings(
      gateway := match Stored(store, Gateway) case Some(GatewayValue(g)) => Some(g) case _ => None,
      payer := match Stored(store, Payer) case Some(AddressValue(a)) => Some(a) case _ => None,
      signatory := match Stored(store, Signatory) case Some(SignatoryValue(g)) => Some(g) case _ => None,
      feeLimit := match Stored(store, FeeLimit) case Some(LongValue(n)) => n case _ => 0,
      transactionDuration := match Stored(store, TransactionDuration) case Some(TimeSpanValue(t)) => t case _ => E.TimeSpan(0),
      retryCount := match Stored(store, RetryCount) case Some(IntValue(n)) => n case _ => 0,
      retryDelay := match Stored(store, RetryDelay) case Some(TimeSpanValue(t)) => t case _ => E.TimeSpan(0),
      memo := match Stored(store, Memo) case Some(StringValue(m)) => Some(m) case _ => None,
      adjustForLocalClockDrift := match Stored(store, AdjustForLocalClockDrift) case Some(BoolValue(b)) => b case _ => false,
      transaction := match Stored(store, Transaction) case Some(TxIdValue(t)) => Some(t) case _ => None,
      onSendingRequest := match Stored(store, OnSendingRequest) case Some(HandlerValue(h)) => Some(h) case _ => None,
      onResponseReceived := match Stored(store, OnResponseReceived) case Some(HandlerValue(h)) => Some(h) case _ => None)
  }

  /** Each typed getter reads the stored entry of its property when that entry
      has the property's type, and the default otherwise. */
  lemma SettingsReadTyped(store: map<string, Option<Value>>, p: Property)
    ensures Field(SettingsOf(store), p) == Typed(p, Stored(store, p))
  {
    match p
    case Gateway =>
    case Payer =>
    case Signatory =>
    case FeeLimit =>
    case TransactionDuration =>
    case RetryCount =>
    case RetryDelay =>
    case Memo =>
    case AdjustForLocalClockDrift =>
    case Transaction =>
    case OnSendingRequest =>
    case OnResponseReceived =>
  }

  /** Setting one property changes what its own getter reads and no other. */
  lemma SettingOneProperty(store: map<string, Option<Value>>, p: Property, v: Option<Value>, q: Property)
    ensures Field(SettingsOf(store[Name(p) := v]), q) ==
      if p == q then Typed(p, v) else Field(SettingsOf(store), q)
  {
    SettingsReadTyped(store[Name(p) := v], q);
    SettingsReadTyped(store, q);
    PropertiesAreIndependent(store, p, v, q);
  }

  /** One frame of the context. Only the frame's own store is modelled; the
      chain of parent frames it inherits from belongs to a base class that is
      not part of this model. */
  class GossipContextStack {
    var store: map<string, Option<Value>>

    /** Every stored name is valid and every stored value fits its property. */
    ghost predicate Valid()
      reads this
    {
      forall name :: name in store ==>
        IsValidPropertyName(name) &&
        exists p :: Name(p) == name && (store[name].Some? ==> Fits(p, store[name].value))
    }

    constructor ()
      ensures Valid() && store == map[]
      ensures forall p :: Field(Snapshot(), p) == Default(p)
    {
      store := map[];
      forall p
        ensures Field(SettingsOf(map[]), p) == Default(p)
      {
        SettingsReadTyped(map[], p);
      }
    }

    function Get(p: Property): Option<Value>
      reads this
    {
      Stored(store, p)
    }

    /** The setter of `p`: stores `v` under the property's own name. */
    method Set(p: Property, v: Option<Value>)
      requires Valid()
      requires v.Some? ==> Fits(p, v.value)
      modifies this
      ensures Valid()
      ensures store == old(store)[Name(p) := v]
      ensures Get(p) == v
      ensures forall q :: q != p ==> Get(q) == old(Get(q))
      ensures Field(Snapshot(), p) == if v.Some? then v else Default(p)
      ensures forall q :: q != p ==> Field(Snapshot(), q) == old(Field(Snapshot(), q))
    {
      ValidNamesAreExactlyPropertyNames(Name(p));
      ghost var before := store;
      store := store[Name(p) := v];
      forall q | q != p
        ensures Get(q) == old(Get(q))
      {
        PropertiesAreIndependent(old(store), p, v, q);
      }
      forall name | name in store
        ensures IsValidPropertyName(name) &&
                exists r :: Name(r) == name && (store[name].Some? ==> Fits(r, store[name].value))
      {
        if name == Name(p) {
          assert Name(p) == name && (store[name].Some? ==> Fits(p, store[name].value));
        } else {
          assert name in old(store);
        }
      }
      forall q
        ensures Field(Snapshot(), q) == if q == p then Typed(p, v) else Field(SettingsOf(before), q)
      {
        SettingOneProperty(before, p, v, q);
      }
    }

    /** The typed getters. An unset reference-typed property reads as null and an
        unset value-typed one as its type's default. */
    function Snapshot(): Settings
      reads this
    {
      SettingsOf(store)
    }

    /** In a valid frame every property that was set reads back through its
        typed getter exactly as stored. */
    lemma SnapshotOfValidFrame()
      requires Valid()
      ensures forall p :: Get(p).Some? ==> Field(Snapshot(), p) == Get(p)
      ensures forall p :: Get(p).None? ==> Field(Snapshot(), p) == Default(p)
    {
      forall p
        ensures Get(p).Some? ==> Field(Snapshot(), p) == Get(p)
        ensures Get(p).None? ==> Field(Snapshot(), p) == Default(p)
      {
        ValidGetFits(p);
        SettingsReadTyped(store, p);
      }
    }

    /** In a valid frame each property reads back a value of its own shape. */
    lemma ValidGetFits(p: Property)
      requires Valid()
      ensures Get(p).Some? ==> Fits(p, Get(p).value)
    {
      if Name(p) in store {
        var q :| Name(q) == Name(p) && (store[Name(p)].Some? ==> Fits(q, store[Name(p)].value));
        NamesAreDistinct(p, q);
      }
    }
  }

  datatype ContextError = InvalidOperation(message: string)

  const NoGatewayMessage := "The Network Gateway Node has not been configured."

  /** The URL of the configured gateway, which must be present and not blank. */
  function GetChannelUrl(gateway: Option<E.Gateway>): (r: Result<string, ContextError>)
    ensures r.Success? <==> gateway.Some? && !Text.IsNullOrWhiteSpace(gateway.value.url)
    ensures r.Success? ==> r == Success(gateway.value.url.value) && exists i :: 0 <= i < |r.value| && !Text.IsWhiteSpace(r.value[i])
    ensures r.Failure? ==> r.error == InvalidOperation(NoGatewayMessage)
  {
    var url := if gateway.Some? then gateway.value.url else None;
    if Text.IsNullOrWhiteSpace(url) then Failure(InvalidOperation(NoGatewayMessage)) else Success(url.value)
  }
}
