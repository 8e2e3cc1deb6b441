/** The request machinery under the public operations (Transactions.cs): merging
    signatories, choosing the transaction id, netting crypto transfers, building
    transaction bodies and query headers, and the retrying executor every
    request goes through. The network, the clock and the handlers are given
    as values: the network as an oracle of outcomes, the clock as instants
    carried by those outcomes, the waits and handler notifications as a trace. */
module Transactions {
  import opened Wrappers
  import E = Entities
  import W = Wire
  import C = Context

  // ---------------------------------------------------------------------------
  // Signatories

  /** The present elements of `xs`, in order; the absent ones are skipped. */
  function Present<T>(xs: seq<Option<T>>): seq<T> {
    if xs == [] then []
    else Present(xs[..|xs| - 1]) + (if xs[|xs| - 1].Some? then [xs[|xs| - 1].value] else [])
  }

  /** Skipping absent elements distributes over concatenation. */
  lemma {:induction false} PresentOfConcat<T>(xs: seq<Option<T>>, ys: seq<Option<T>>)
    ensures Present(xs + ys) == Present(xs) + Present(ys)
  {
    if ys == [] {
      assert xs + ys == xs;
    } else {
      var init := ys[..|ys| - 1];
      assert (xs + ys)[..|xs + ys| - 1] == xs + init;
      PresentOfConcat(xs, init);
    }
  }

  /** Every kept element comes from a present position, and every present
      element is kept. */
  lemma {:induction false} PresentElements<T>(xs: seq<Option<T>>)
    ensures |Present(xs)| <= |xs|
    ensures forall x :: x in Present(xs) <==> Some(x) in xs
  {
    if xs != [] {
      var init := xs[..|xs| - 1];
      PresentElements(init);
      assert xs == init + [xs[|xs| - 1]];
      forall x ensures Some(x) in xs <==> Some(x) in init || xs[|xs| - 1] == Some(x) {
      }
    }
  }

  /** The signatory a request is signed with: the context's signatory first,
      then the extra ones in argument order, absent ones skipped; a single one
      stands alone and any other number (none included) becomes a composite. */
  function Gathered(contextSignatory: Option<E.Signatory>, extraSignatories: seq<Option<E.Signatory>>): E.Signatory {
    var signatories := Present([contextSignatory] + extraSignatories);
    if |signatories| == 1 then signatories[0] else E.Composite(signatories)
  }

  method GatherSignatories(context: C.Settings, extraSignatories: seq<Option<E.Signatory>>) returns (s: E.Signatory)
    ensures s == Gathered(context.signatory, extraSignatories)
  {
    var signatories: seq<E.Signatory> := [];
    var contextSignatory := context.signatory;
    if contextSignatory.Some? {
      signatories := signatories + [contextSignatory.value];
    }
    assert signatories == Present([contextSignatory]);
    for i := 0 to |extraSignatories|
      invariant signatories == Present([contextSignatory] + extraSignatories[..i])
    {
      assert [contextSignatory] + extraSignatories[..i + 1] == ([contextSignatory] + extraSignatories[..i]) + [extraSignatories[i]];
      PresentOfConcat([contextSignatory] + extraSignatories[..i], [extraSignatories[i]]);
      if extraSignatories[i].Some? {
        signatories := signatories + [extraSignatories[i].value];
      }
    }
    assert extraSignatories[..|extraSignatories|] == extraSignatories;
    s := if |signatories| == 1 then signatories[0] else E.Composite(signatories);
  }

  /** What the merge promises: the context's signatory leads, then the present
      extras in order; the same signatory given twice is kept twice. */
  lemma GatheredOrder(contextSignatory: Option<E.Signatory>, extraSignatories: seq<Option<E.Signatory>>)
    ensures var s := Gathered(contextSignatory, extraSignatories);
      var listed := Present(extraSignatories);
      && (contextSignatory.Some? && listed == [] ==> s == contextSignatory.value)
      && (contextSignatory.None? && |listed| == 1 ==> s == listed[0])
      && (contextSignatory.Some? && listed != [] ==> s == E.Composite([contextSignatory.value] + listed))
      && (contextSignatory.None? && |listed| != 1 ==> s == E.Composite(listed))
  {
    PresentOfConcat([contextSignatory], extraSignatories);
    assert Present([contextSignatory]) == Present([] + [contextSignatory]);
  }

  lemma PresentOfOne<T>(x: Option<T>)
    ensures Present([x]) == if x.Some? then [x.value] else []
  {
    assert [x][..0] == [];
  }

  /** Signatories are not deduplicated, absent ones leave no trace, and no
      signatory at all gives an empty composite. */
  lemma GatheredKeepsDuplicates(s: E.Signatory)
    ensures Gathered(Some(s), [Some(s)]) == E.Composite([s, s])
    ensures Gathered(None, [None, Some(s), None]) == s
    ensures Gathered(None, []) == E.Composite([])
  {
    var none: Option<E.Signatory> := None;
    PresentOfOne(none);
    PresentOfOne(Some(s));
    var twice := [Some(s), Some(s)];
    assert [Some(s)] + [Some(s)] == twice && twice[..1] == [Some(s)];
    assert Present(twice) == [s, s];
    var padded := [none, none, Some(s), none];
    assert padded[..1] == [none] && padded[..2][..1] == [none];
    assert Present(padded[..2]) == [];
    assert padded[..3][..2] == padded[..2];
    assert Present(padded[..3]) == [s];
    assert padded[..4][..3] == padded[..3] && padded[..4] == padded;
    assert [none] + [none, Some(s), none] == padded;
    assert Present(padded) == [s];
    assert [none] + [] == [none];
  }

  // ---------------------------------------------------------------------------
  // Transaction ids, bodies and query headers

  /** A required context value that is missing. The checks themselves belong
      to a helper that is not part of this model; only which value is missing
      is recorded. */
  datatype ContextError = MissingContextValue(property: C.Property)

  /** The pinned transaction id when the context has one; otherwise a fresh id
      paid by the context's payer, valid from `validStart` (the clock's next
      unique instant). */
  function GetOrCreateTransactionID(context: C.Settings, validStart: W.Timestamp): (r: Result<W.TransactionID, ContextError>)
    ensures context.transaction.Some? ==> r == Success(W.ToTransactionID(context.transaction.value))
    ensures context.transaction.None? ==> (r.Success? <==> context.payer.Some?)
    ensures context.transaction.None? && r.Success? ==>
      W.FromAccountID(r.value.accountId) == context.payer.value && r.value.validStart == validStart
    ensures r.Failure? ==> r.error == MissingContextValue(C.Payer)
  {
    if context.transaction.None? then
      if context.payer.None? then Failure(MissingContextValue(C.Payer))
      else Success(W.TransactionID(W.ToAccountID(context.payer.value), validStart))
    else Success(W.ToTransactionID(context.transaction.value))
  }

  /** A pinned id goes back to the wire unchanged. */
  lemma PinnedTransactionIdRoundTrip(context: C.Settings, id: W.TransactionID, validStart: W.Timestamp)
    requires context.transaction == Some(W.FromTransactionId(id))
    ensures GetOrCreateTransactionID(context, validStart) == Success(id)
  {
  }

  /** Casting a 64-bit signed value to `ulong`: negatives wrap around. */
  function ToUnsigned64(x: int): (r: nat)
    requires -0x8000_0000_0000_0000 <= x < 0x8000_0000_0000_0000
    ensures r < 0x1_0000_0000_0000_0000
    ensures x >= 0 ==> r == x
    ensures x < 0 ==> r == x + 0x1_0000_0000_0000_0000
  {
    x % 0x1_0000_0000_0000_0000
  }

  predicate IsLong(x: int) {
    -0x8000_0000_0000_0000 <= x < 0x8000_0000_0000_0000
  }

  datatype TransactionBody = TransactionBody(
    transactionId: W.TransactionID,
    nodeAccountId: W.AccountID,
    transactionFee: nat,
    transactionValidDuration: W.Duration,
    memo: string,
    cryptoTransfers: Option<seq<W.AccountAmount>>)

  /** The common part of every transaction body: the id, the gateway node, the
      fee limit as an unsigned value, the validity period in whole seconds and
      the memo, empty when there is none. */
  function CreateTransactionBody(context: C.Settings, transactionId: W.TransactionID): (r: Result<TransactionBody, ContextError>)
    requires IsLong(context.feeLimit)
    ensures r.Success? <==> context.gateway.Some?
    ensures r.Failure? ==> r.error == MissingContextValue(C.Gateway)
    ensures r.Success? ==>
      && r.value.transactionId == transactionId
      && W.FromAccountID(r.value.nodeAccountId) == context.gateway.value.node
      && (context.feeLimit >= 0 ==> r.value.transactionFee == context.feeLimit)
      && (context.feeLimit < 0 ==> r.value.transactionFee == context.feeLimit + 0x1_0000_0000_0000_0000)
      && r.value.transactionValidDuration.seconds == W.TruncDiv(context.transactionDuration.ticks, W.TicksPerSecond)
      && (context.memo.Some? ==> r.value.memo == context.memo.value)
      && (context.memo.None? ==> r.value.memo == "")
      && r.value.cryptoTransfers.None?
  {
    if context.gateway.None? then Failure(MissingContextValue(C.Gateway))
    else Success(TransactionBody(
      transactionId,
      W.ToAccountID(context.gateway.value.node),
      ToUnsigned64(context.feeLimit),
      W.ToDuration(context.transactionDuration),
      context.memo.GetOr(""),
      None))
  }

  datatype ResponseType = AnswerOnly | CostAnswer

  /** The payment attached to a query: the empty unsigned transaction of a cost
      question, or a body signed by a signatory (signing is not modelled). */
  datatype Payment = EmptyTransaction | SignedTransaction(body: TransactionBody, signatory: E.Signatory)

  datatype QueryHeader = QueryHeader(payment: Payment, responseType: ResponseType)

  /** The header of a query that asks only for its cost: nothing is paid. */
  function CreateAskCostHeader(): (h: QueryHeader)
    ensures h.payment.EmptyTransaction? && h.responseType == CostAnswer
  {
    QueryHeader(EmptyTransaction, CostAnswer)
  }

  // ---------------------------------------------------------------------------
  // Crypto transfer lists

  datatype Transfer = Transfer(address: E.Address, amount: int)

  /** The net amount requested for `address`. */
  function Net(list: seq<Transfer>, address: E.Address): int {
    if list == [] then 0
    else Net(list[..|list| - 1], address) + (if list[|list| - 1].address == address then list[|list| - 1].amount else 0)
  }

  /** The sum of every requested amount. */
  function Total(list: seq<Transfer>): int {
    if list == [] then 0 else Total(list[..|list| - 1]) + list[|list| - 1].amount
  }

  /** The addresses of `list` in the order a dictionary first receives them. */
  function FirstSeen(list: seq<Transfer>): seq<E.Address> {
    if list == [] then []
    else
      var earlier := FirstSeen(list[..|list| - 1]);
      if list[|list| - 1].address in earlier then earlier else earlier + [list[|list| - 1].address]
  }

  /** One wire entry per address of `order` whose net is not zero, in order. */
  function NonZeroNets(list: seq<Transfer>, order: seq<E.Address>): seq<W.AccountAmount> {
    if order == [] then []
    else
      var a := order[|order| - 1];
      NonZeroNets(list, order[..|order| - 1]) + (if Net(list, a) != 0 then [W.AccountAmount(W.ToAccountID(a), Net(list, a))] else [])
  }

  /** The transfer list the network receives for `list`. */
  function NetTransfers(list: seq<Transfer>): seq<W.AccountAmount> {
    NonZeroNets(list, FirstSeen(list))
  }

  /** Nets the requests per address in a dictionary, then lists the addresses
      whose net is not zero. */
  method CreateCryptoTransferList(list: seq<Transfer>) returns (transfers: seq<W.AccountAmount>)
    ensures transfers == NetTransfers(list)
  {
    var netRequests: map<E.Address, int> := map[];
    var order: seq<E.Address> := [];
    for i := 0 to |list|
      invariant order == FirstSeen(list[..i])
      invariant netRequests.Keys == set a | a in order
      invariant forall a :: a in netRequests ==> netRequests[a] == Net(list[..i], a)
    {
      var transfer := list[i];
      assert list[..i + 1][..i] == list[..i];
      FirstSeenElements(list[..i]);
      if transfer.address in netRequests {
        netRequests := netRequests[transfer.address := netRequests[transfer.address] + transfer.amount];
      } else {
        NotSeenNetZero(list[..i], transfer.address);
        netRequests := netRequests[transfer.address := transfer.amount];
        order := order + [transfer.address];
      }
    }
    assert list[..|list|] == list;
    transfers := [];
    for j := 0 to |order|
      invariant transfers == NonZeroNets(list, order[..j])
    {
      assert order[..j + 1][..j] == order[..j];
      var address := order[j];
      if netRequests[address] != 0 {
        transfers := transfers + [W.AccountAmount(W.ToAccountID(address), netRequests[address])];
      }
    }
    assert order[..|order|] == order;
  }

  lemma {:induction false} FirstSeenElements(list: seq<Transfer>)
    ensures forall a :: a in FirstSeen(list) ==> exists i :: 0 <= i < |list| && list[i].address == a
    ensures forall i :: 0 <= i < |list| ==> list[i].address in FirstSeen(list)
  {
    if list != [] {
      var init := list[..|list| - 1];
      FirstSeenElements(init);
      forall a | a in FirstSeen(list)
        ensures exists i :: 0 <= i < |list| && list[i].address == a
      {
        if a in FirstSeen(init) {
          var i :| 0 <= i < |init| && init[i].address == a;
          assert list[i] == init[i];
        } else {
          assert list[|list| - 1].address == a;
        }
      }
      forall i | 0 <= i < |list|
        ensures list[i].address in FirstSeen(list)
      {
        if i < |init| {
          assert init[i] == list[i];
        }
      }
    }
  }

  lemma {:induction false} FirstSeenDistinct(list: seq<Transfer>)
    ensures forall i, j :: 0 <= i < j < |FirstSeen(list)| ==> FirstSeen(list)[i] != FirstSeen(list)[j]
  {
    if list != [] {
      FirstSeenDistinct(list[..|list| - 1]);
    }
  }

  lemma {:induction false} NotSeenNetZero(list: seq<Transfer>, address: E.Address)
    requires forall i :: 0 <= i < |list| ==> list[i].address != address
    ensures Net(list, address) == 0
  {
    if list != [] {
      NotSeenNetZero(list[..|list| - 1], address);
    }
  }

  lemma {:induction false} NonZeroNetsEntries(list: seq<Transfer>, order: seq<E.Address>)
    ensures forall k :: 0 <= k < |NonZeroNets(list, order)| ==>
      var entry := NonZeroNets(list, order)[k];
      entry.amount != 0 && entry.amount == Net(list, W.FromAccountID(entry.accountId)) && W.FromAccountID(entry.accountId) in order
    ensures forall a :: a in order && Net(list, a) != 0 ==> W.AccountAmount(W.ToAccountID(a), Net(list, a)) in NonZeroNets(list, order)
  {
    if order != [] {
      NonZeroNetsEntries(list, order[..|order| - 1]);
      assert order == order[..|order| - 1] + [order[|order| - 1]];
    }
  }

  lemma {:induction false} NonZeroNetsDistinct(list: seq<Transfer>, order: seq<E.Address>)
    requires forall i, j :: 0 <= i < j < |order| ==> order[i] != order[j]
    ensures forall i, j :: 0 <= i < j < |NonZeroNets(list, order)| ==>
      NonZeroNets(list, order)[i].accountId != NonZeroNets(list, order)[j].accountId
  {
    if order != [] {
      var init := order[..|order| - 1];
      NonZeroNetsDistinct(list, init);
      NonZeroNetsEntries(list, init);
      var last := order[|order| - 1];
      assert last !in init;
      forall k | 0 <= k < |NonZeroNets(list, init)|
        ensures NonZeroNets(list, init)[k].accountId != W.ToAccountID(last)
      {
        assert W.FromAccountID(NonZeroNets(list, init)[k].accountId) in init;
      }
    }
  }

  /** The network receives each address at most once, with its net amount, which
      is never zero; every address with a nonzero net is listed. */
  lemma NetTransfersAreNetted(list: seq<Transfer>)
    ensures forall i, j :: 0 <= i < j < |NetTransfers(list)| ==> NetTransfers(list)[i].accountId != NetTransfers(list)[j].accountId
    ensures forall k :: 0 <= k < |NetTransfers(list)| ==>
      var entry := NetTransfers(list)[k];
      entry.amount != 0 && entry.amount == Net(list, W.FromAccountID(entry.accountId))
    ensures forall a :: Net(list, a) != 0 <==> W.AccountAmount(W.ToAccountID(a), Net(list, a)) in NetTransfers(list)
  {
    FirstSeenDistinct(list);
    FirstSeenElements(list);
    NonZeroNetsDistinct(list, FirstSeen(list));
    NonZeroNetsEntries(list, FirstSeen(list));
    forall a | Net(list, a) != 0
      ensures a in FirstSeen(list)
    {
      if a !in FirstSeen(list) {
        NotSeenNetZero(list, a);
      }
    }
  }

  /** The sum of `Net` over the addresses of `order`. */
  function SumNets(list: seq<Transfer>, order: seq<E.Address>): int {
    if order == [] then 0 else SumNets(list, order[..|order| - 1]) + Net(list, order[|order| - 1])
  }

  function SumAmounts(entries: seq<W.AccountAmount>): int {
    if entries == [] then 0 else SumAmounts(entries[..|entries| - 1]) + entries[|entries| - 1].amount
  }

  lemma {:induction false} SumNetsOfEmpty(order: seq<E.Address>)
    ensures SumNets([], order) == 0
  {
    if order != [] {
      SumNetsOfEmpty(order[..|order| - 1]);
    }
  }

  /** One more request adds its amount to exactly one address of `order`. */
  lemma {:induction false} SumNetsStep(list: seq<Transfer>, t: Transfer, order: seq<E.Address>)
    requires forall i, j :: 0 <= i < j < |order| ==> order[i] != order[j]
    ensures SumNets(list + [t], order) == SumNets(list, order) + (if t.address in order then t.amount else 0)
  {
    assert (list + [t])[..|list + [t]| - 1] == list;
    if order != [] {
      var init := order[..|order| - 1];
      SumNetsStep(list, t, init);
      assert order == init + [order[|order| - 1]];
    }
  }

  lemma {:induction false} SumNetsIsTotal(list: seq<Transfer>, order: seq<E.Address>)
    requires forall i, j :: 0 <= i < j < |order| ==> order[i] != order[j]
    requires forall i :: 0 <= i < |list| ==> list[i].address in order
    ensures SumNets(list, order) == Total(list)
  {
    if list == [] {
      SumNetsOfEmpty(order);
    } else {
      var init := list[..|list| - 1];
      SumNetsIsTotal(init, order);
      SumNetsStep(init, list[|list| - 1], order);
      assert init + [list[|list| - 1]] == list;
    }
  }

  lemma {:induction false} NonZeroNetsSum(list: seq<Transfer>, order: seq<E.Address>)
    ensures SumAmounts(NonZeroNets(list, order)) == SumNets(list, order)
  {
    if order != [] {
      var init := order[..|order| - 1];
      NonZeroNetsSum(list, init);
      var a := order[|order| - 1];
      assert SumNets(list, order) == SumNets(list, init) + Net(list, a);
      if Net(list, a) != 0 {
        var entries := NonZeroNets(list, init) + [W.AccountAmount(W.ToAccountID(a), Net(list, a))];
        assert NonZeroNets(list, order) == entries;
        assert entries[..|entries| - 1] == NonZeroNets(list, init);
      } else {
        assert NonZeroNets(list, order) == NonZeroNets(list, init);
      }
    }
  }

  /** Netting moves no money: the listed amounts sum to the requested ones. */
  lemma NetTransfersPreserveTotal(list: seq<Transfer>)
    ensures SumAmounts(NetTransfers(list)) == Total(list)
  {
    FirstSeenDistinct(list);
    FirstSeenElements(list);
    NonZeroNetsSum(list, FirstSeen(list));
    SumNetsIsTotal(list, FirstSeen(list));
  }

  /** Reading a netted list back with the wire conversion gives every listed
      address its net. */
  lemma NetTransfersReadBack(list: seq<Transfer>, a: E.Address)
    requires Net(list, a) != 0
    ensures W.TotalFor(NetTransfers(list), a) == Net(list, a)
  {
    NetTransfersAreNetted(list);
    var entries := NetTransfers(list);
    var k :| 0 <= k < |entries| && entries[k] == W.AccountAmount(W.ToAccountID(a), Net(list, a));
    TotalForSingle(entries, k, a);
  }

  lemma {:induction false} TotalForSingle(entries: seq<W.AccountAmount>, k: nat, a: E.Address)
    requires k < |entries| && W.FromAccountID(entries[k].accountId) == a
    requires forall i, j :: 0 <= i < j < |entries| ==> entries[i].accountId != entries[j].accountId
    ensures W.TotalFor(entries, a) == entries[k].amount
  {
    var init := entries[..|entries| - 1];
    if k == |entries| - 1 {
      forall i | 0 <= i < |init| ensures W.FromAccountID(init[i].accountId) != a {
        W.AccountIDRoundTrip(a, init[i].accountId);
      }
      W.NotListedTotalsZero(init, a);
    } else {
      TotalForSingle(init, k, a);
      W.AccountIDRoundTrip(a, entries[|entries| - 1].accountId);
    }
  }

  /** The query payment: the payer pays the gateway the fee. */
  function QueryPayment(payer: E.Address, gateway: E.Address, fee: int): seq<Transfer> {
    [Transfer(payer, -fee), Transfer(gateway, fee)]
  }

  /** A node paying itself, or a zero fee, transfers nothing; otherwise the payer
      is debited and the gateway credited, in that order. */
  lemma QueryPaymentTransfers(payer: E.Address, gateway: E.Address, fee: int)
    ensures payer == gateway || fee == 0 ==> NetTransfers(QueryPayment(payer, gateway, fee)) == []
    ensures payer != gateway && fee != 0 ==>
      NetTransfers(QueryPayment(payer, gateway, fee)) == [W.AccountAmount(W.ToAccountID(payer), -fee), W.AccountAmount(W.ToAccountID(gateway), fee)]
  {
    var list := QueryPayment(payer, gateway, fee);
    var first := list[..1];
    assert first == [Transfer(payer, -fee)];
    assert first[..0] == [];
    assert FirstSeen(first) == [payer];
    assert Net(first, payer) == -fee;
    assert Net(first, gateway) == if payer == gateway then -fee else 0;
    assert Net(list, payer) == if payer == gateway then 0 else -fee;
    assert Net(list, gateway) == fee - (if payer == gateway then fee else 0);
    assert [payer][..0] == [];
    assert NonZeroNets(list, [payer]) == NonZeroNets(list, []) + (if Net(list, payer) != 0 then [W.AccountAmount(W.ToAccountID(payer), Net(list, payer))] else []);
    if payer == gateway {
      assert FirstSeen(list) == [payer];
    } else {
      assert FirstSeen(list) == [payer, gateway];
      assert [payer, gateway][..1] == [payer];
      assert NonZeroNets(list, [payer, gateway]) == NonZeroNets(list, [payer]) + (if Net(list, gateway) != 0 then [W.AccountAmount(W.ToAccountID(gateway), Net(list, gateway))] else []);
    }
  }

  /** The paid header of a query: a body for the context's gateway and fee limit
      whose crypto transfer pays `fee` from the payer to the gateway, signed by
      the context's signatory. The gateway, payer and signatory are required in
      that order; `fee` is the query fee after its own checks. */
  method CreateAndSignQueryHeader(context: C.Settings, fee: int, transactionId: W.TransactionID)
    returns (r: Result<QueryHeader, ContextError>)
    requires IsLong(context.feeLimit)
    ensures context.gateway.None? ==> r == Failure(MissingContextValue(C.Gateway))
    ensures context.gateway.Some? && context.payer.None? ==> r == Failure(MissingContextValue(C.Payer))
    ensures context.gateway.Some? && context.payer.Some? && context.signatory.None? ==>
      r == Failure(MissingContextValue(C.Signatory))
    ensures r.Success? <==> context.gateway.Some? && context.payer.Some? && context.signatory.Some?
    ensures r.Success? ==>
      var body := CreateTransactionBody(context, transactionId).value;
      r.value == QueryHeader(
        SignedTransaction(
          body.(cryptoTransfers := Some(NetTransfers(QueryPayment(context.payer.value, context.gateway.value.node, fee)))),
          context.signatory.value),
        AnswerOnly)
  {
    if context.gateway.None? {
      return Failure(MissingContextValue(C.Gateway));
    }
    if context.payer.None? {
      return Failure(MissingContextValue(C.Payer));
    }
    if context.signatory.None? {
      return Failure(MissingContextValue(C.Signatory));
    }
    var gateway := context.gateway.value.node;
    var payer := context.payer.value;
    var body := CreateTransactionBody(context, transactionId).value;
    var transfers := CreateCryptoTransferList(QueryPayment(payer, gateway, fee));
    body := body.(cryptoTransfers := Some(transfers));
    r := Success(QueryHeader(SignedTransaction(body, context.signatory.value), AnswerOnly));
  }

  // ---------------------------------------------------------------------------
  // The retrying executor

  /** A response, with the precheck code of its header when it has one. */
  datatype Response = Response(header: Option<W.Code>)

  /** A missing header counts as `Unknown`. */
  function CodeOf(response: Response): W.Code {
    response.header.GetOr(W.Unknown)
  }

  /** One call to the network: answered (at the instant the clock then reads),
      refused as unavailable, or failed with any other RPC error. */
  datatype Attempt<T> = Answered(value: T, at: int) | Unavailable | RpcFailure

  /** The network as an oracle: the outcome of the n-th send of the request and
      of the n-th receipt probe, both counted from 0. */
  datatype Network = Network(send: nat -> Attempt<Response>, probe: nat -> Attempt<W.Code>)

  /** The retry predicate a request is executed with: an unsigned query retries
      on `Busy` only; a signed request also retries on a start time the node
      rejects, and may then correct the local clock's drift. */
  datatype Policy = RetryOnBusy | RetryOnBusyOrInvalidStart(trackDrift: bool, startingInstant: int)

  predicate ShouldRetry(policy: Policy, response: Response) {
    match policy
    case RetryOnBusy => response.header == Some(W.Busy)
    case RetryOnBusyOrInvalidStart(_, _) => CodeOf(response) == W.Busy || CodeOf(response) == W.InvalidTransactionStart
  }

  /** How much the retry predicate adds to the clock drift when it sees
      `response` at instant `at`. */
  function DriftDelta(policy: Policy, response: Response, at: int): int {
    if policy.RetryOnBusyOrInvalidStart? && policy.trackDrift && CodeOf(response) == W.InvalidTransactionStart
    then at - policy.startingInstant
    else 0
  }

  /** What the response handlers are told: a response, or that the node could
      not be reached. */
  datatype Notice = Reply(response: Response) | UnavailableNotice

  /** One step of an execution as seen from outside: the sending handlers are
      called, the response handlers are called with a try number, or the
      executor waits a number of ticks. */
  datatype Event = SendingRequest | ResponseReceived(tryNumber: int, notice: Notice) | Waited(ticks: int)

  /** The state the executor threads through its loops: the shared retry count,
      how many sends and probes have been made, the clock drift and the trace. */
  datatype Exec = Exec(retryCount: int, sends: nat, probes: nat, drift: int, trace: seq<Event>)

  /** How a receipt probe ended: a precheck code read at an instant, every
      retry used up, or an RPC error other than unavailability. */
  datatype ProbeOutcome = Receipt(code: W.Code, at: int) | Exhausted | ProbeFailed

  datatype ExecError = PrecheckException(status: W.Code) | InvalidOperationException(message: string)

  /** The wait after a try, and the move to the next one. */
  function Backoff(s: Exec, delay: int): Exec {
    s.(trace := s.trace + [Waited(delay * (s.retryCount + 1))], retryCount := s.retryCount + 1)
  }

  /** The receipt probe, on the retry count it shares with the send loop. */
  function ProbeLoop(net: Network, maxRetries: int, delay: int, s: Exec): (r: (ProbeOutcome, Exec))
    ensures s.retryCount <= r.1.retryCount
    ensures !r.0.Exhausted? ==> r.1.retryCount < maxRetries
    ensures r.0.Exhausted? ==> r.1.retryCount == if s.retryCount < maxRetries then maxRetries else s.retryCount
    ensures r.1.sends == s.sends && r.1.drift == s.drift
    ensures r.1.probes == s.probes + (r.1.retryCount - s.retryCount) + (if r.0.Exhausted? then 0 else 1)
    decreases maxRetries - s.retryCount
  {
    if s.retryCount >= maxRetries then (Exhausted, s)
    else
      var s1 := s.(probes := s.probes + 1);
      match net.probe(s.probes)
      case Answered(code, at) => (Receipt(code, at), s1)
      case RpcFailure => (ProbeFailed, s1)
      case Unavailable =>
        var s2 := s1.(trace := s1.trace + [ResponseReceived(s.retryCount, UnavailableNotice)]);
        ProbeLoop(net, maxRetries, delay, Backoff(s2, delay))
  }

  /** The last send after the retries are used up: its response is returned
      whatever it is, and reported with the maximum as its try number. */
  function FinalSend(net: Network, maxRetries: int, s: Exec): (Result<Response, ExecError>, Exec) {
    var s1 := s.(sends := s.sends + 1);
    match net.send(s.sends)
    case Answered(response, _) => (Success(response), s1.(trace := s1.trace + [ResponseReceived(maxRetries, Reply(response))]))
    case _ => (Failure(PrecheckException(W.Unknown)), s1)
  }

  /** Where one try of the send loop leaves the execution: finished with a
      result, or moved on to a later try. */
  datatype Step = Done(result: Result<Response, ExecError>, state: Exec) | Continue(state: Exec)

  /** One try of the send loop at retry count `s.retryCount`. */
  function Try(net: Network, policy: Policy, isTransaction: bool, maxRetries: int, delay: int, s: Exec): (r: Step)
    requires s.retryCount < maxRetries
    ensures r.Continue? ==> s.retryCount < r.state.retryCount <= maxRetries
    ensures r.state.sends == s.sends + 1
    ensures r.Continue? ==> r.state.probes <= s.probes + (r.state.retryCount - s.retryCount)
    ensures r.Done? ==> r.state.probes <= s.probes + (maxRetries - s.retryCount)
  {
    var rc := s.retryCount;
    var s1 := s.(sends := s.sends + 1);
    match net.send(s.sends)
    case RpcFailure => Done(Failure(PrecheckException(W.Unknown)), s1)
    case Answered(response, at) =>
      var s2 := s1.(trace := s1.trace + [ResponseReceived(rc, Reply(response))], drift := s1.drift + DriftDelta(policy, response, at));
      if !ShouldRetry(policy, response) then Done(Success(response), s2) else Continue(Backoff(s2, delay))
    case Unavailable =>
      var s2 := s1.(trace := s1.trace + [ResponseReceived(rc, UnavailableNotice)]);
      if !isTransaction then Continue(Backoff(s2, delay))
      else
        var probed := ProbeLoop(net, maxRetries, delay, s2.(trace := s2.trace + [Waited(delay * rc)]));
        AfterProbe(policy, maxRetries, delay, probed.0, probed.1)
  }

  /** The rest of a try once the receipt probe has ended. A probe answered with
      anything but `ReceiptNotFound` goes through the retry predicate like a
      response, and an exhausted probe counts as an `Unknown` answer. */
  function AfterProbe(policy: Policy, maxRetries: int, delay: int, outcome: ProbeOutcome, s: Exec): (r: Step)
    requires outcome.Exhausted? ==> s.retryCount <= maxRetries
    requires !outcome.Exhausted? ==> s.retryCount < maxRetries
    ensures r.Continue? ==> r.state.retryCount == s.retryCount + 1 <= maxRetries
    ensures r.Done? ==> r.state.retryCount == s.retryCount
    ensures r.state.sends == s.sends && r.state.probes == s.probes
  {
    if outcome.ProbeFailed? then Done(Failure(PrecheckException(W.Unknown)), s)
    else
      var receipt := Response(Some(if outcome.Receipt? then outcome.code else W.Unknown));
      var s1 := s.(trace := s.trace + [ResponseReceived(s.retryCount, Reply(receipt))]);
      if CodeOf(receipt) == W.ReceiptNotFound then Continue(Backoff(s1, delay))
      else
        var s2 := s1.(drift := s1.drift + DriftDelta(policy, receipt, if outcome.Receipt? then outcome.at else 0));
        if !ShouldRetry(policy, receipt) then Done(Success(receipt), s2) else Continue(Backoff(s2, delay))
  }

  /** The send loop from state `s`, then the final send. */
  function RetryLoop(net: Network, policy: Policy, isTransaction: bool, maxRetries: int, delay: int, s: Exec)
    : (Result<Response, ExecError>, Exec)
    decreases maxRetries - s.retryCount
  {
    if s.retryCount >= maxRetries then FinalSend(net, maxRetries, s)
    else
      match Try(net, policy, isTransaction, maxRetries, delay, s)
      case Done(result, t) => (result, t)
      case Continue(t) => RetryLoop(net, policy, isTransaction, maxRetries, delay, t)
  }

  /** A whole execution: the channel needs a configured gateway URL; then the
      sending handlers are called and the send loop runs from zero. */
  function Execute(context: C.Settings, net: Network, policy: Policy, isTransaction: bool, drift: int)
    : (Result<Response, ExecError>, Exec)
  {
    var start := Exec(0, 0, 0, drift, []);
    match C.GetChannelUrl(context.gateway)
    case Failure(e) => (Failure(InvalidOperationException(e.message)), start)
    case Success(_) =>
      RetryLoop(net, policy, isTransaction, context.retryCount, context.retryDelay.ticks, start.(trace := [SendingRequest]))
  }

  /** The process-wide correction of the local clock. */
  class Epoch {
    var clockDrift: int

    constructor (drift: int)
      ensures clockDrift == drift
    {
      clockDrift := drift;
    }

    method AddToClockDrift(delta: int)
      modifies this
      ensures clockDrift == old(clockDrift) + delta
    {
      clockDrift := clockDrift + delta;
    }
  }

  /** The retry predicate, with its side effect on the clock drift. */
  method ShouldRetryRequest(policy: Policy, response: Response, at: int, epoch: Epoch) returns (retry: bool)
    modifies epoch
    ensures retry == ShouldRetry(policy, response)
    ensures epoch.clockDrift == old(epoch.clockDrift) + DriftDelta(policy, response, at)
  {
    var code := CodeOf(response);
    if policy.RetryOnBusyOrInvalidStart? && policy.trackDrift && code == W.InvalidTransactionStart {
      epoch.AddToClockDrift(at - policy.startingInstant);
    }
    retry := match policy
      case RetryOnBusy => response.header == Some(W.Busy)
      case RetryOnBusyOrInvalidStart(_, _) => code == W.Busy || code == W.InvalidTransactionStart;
  }

  /** Probes for the receipt of a transaction whose send found the node
      unavailable, advancing the retry count it shares with the send loop. */
  method CheckForReceipt(net: Network, maxRetries: int, retryDelay: int, s: Exec) returns (outcome: ProbeOutcome, t: Exec)
    ensures (outcome, t) == ProbeLoop(net, maxRetries, retryDelay, s)
  {
    t := s;
    while t.retryCount < maxRetries
      invariant ProbeLoop(net, maxRetries, retryDelay, t) == ProbeLoop(net, maxRetries, retryDelay, s)
      decreases maxRetries - t.retryCount
    {
      var attempt := net.probe(t.probes);
      t := t.(probes := t.probes + 1);
      if attempt.Answered? {
        return Receipt(attempt.value, attempt.at), t;
      } else if attempt.RpcFailure? {
        return ProbeFailed, t;
      }
      t := t.(trace := t.trace + [ResponseReceived(t.retryCount, UnavailableNotice)]);
      t := Backoff(t, retryDelay);
    }
    outcome := Exhausted;
  }

  /** One try: sends the request and, for a transaction the node did not take,
      probes for its receipt. */
  method TryOnce(net: Network, policy: Policy, isTransaction: bool, maxRetries: int, retryDelay: int,
                 retryCount: int, sends: nat, probes: nat, trace: seq<Event>, epoch: Epoch)
    returns (step: Step)
    requires retryCount < maxRetries
    modifies epoch
    ensures step == Try(net, policy, isTransaction, maxRetries, retryDelay, Exec(retryCount, sends, probes, old(epoch.clockDrift), trace))
    ensures epoch.clockDrift == step.state.drift
  {
    var attempt := net.send(sends);
    var sent := sends + 1;
    if attempt.RpcFailure? {
      return Done(Failure(PrecheckException(W.Unknown)), Exec(retryCount, sent, probes, epoch.clockDrift, trace));
    }
    if attempt.Answered? {
      var seen := trace + [ResponseReceived(retryCount, Reply(attempt.value))];
      var retry := ShouldRetryRequest(policy, attempt.value, attempt.at, epoch);
      var now := Exec(retryCount, sent, probes, epoch.clockDrift, seen);
      return if retry then Continue(Backoff(now, retryDelay)) else Done(Success(attempt.value), now);
    }
    var seen := trace + [ResponseReceived(retryCount, UnavailableNotice)];
    if !isTransaction {
      return Continue(Backoff(Exec(retryCount, sent, probes, epoch.clockDrift, seen), retryDelay));
    }
    var outcome, after := CheckForReceipt(net, maxRetries, retryDelay, Exec(retryCount, sent, probes, epoch.clockDrift, seen + [Waited(retryDelay * retryCount)]));
    if outcome.ProbeFailed? {
      return Done(Failure(PrecheckException(W.Unknown)), after);
    }
    var receipt := Response(Some(if outcome.Receipt? then outcome.code else W.Unknown));
    var reported := after.(trace := after.trace + [ResponseReceived(after.retryCount, Reply(receipt))]);
    if CodeOf(receipt) == W.ReceiptNotFound {
      return Continue(Backoff(reported, retryDelay));
    }
    var retry := ShouldRetryRequest(policy, receipt, if outcome.Receipt? then outcome.at else 0, epoch);
    var now := reported.(drift := epoch.clockDrift);
    return if retry then Continue(Backoff(now, retryDelay)) else Done(Success(receipt), now);
  }

  /** Sends the request until the retry predicate accepts a response, probing for
      a transaction's receipt when the node is unavailable, then sends it once
      more unconditionally. */
  method ExecuteNetworkRequestWithRetry(context: C.Settings, net: Network, policy: Policy, isTransaction: bool, epoch: Epoch)
    returns (r: Result<Response, ExecError>, run: Exec)
    modifies epoch
    ensures (r, run) == Execute(context, net, policy, isTransaction, old(epoch.clockDrift))
    ensures epoch.clockDrift == run.drift
  {
    var url := C.GetChannelUrl(context.gateway);
    if url.Failure? {
      return Failure(InvalidOperationException(url.error.message)), Exec(0, 0, 0, epoch.clockDrift, []);
    }
    var retryCount := 0;
    var maxRetries := context.retryCount;
    var retryDelay := context.retryDelay.ticks;
    var sends: nat, probes: nat := 0, 0;
    var trace := [SendingRequest];
    while retryCount < maxRetries
      invariant RetryLoop(net, policy, isTransaction, maxRetries, retryDelay, Exec(retryCount, sends, probes, epoch.clockDrift, trace))
             == Execute(context, net, policy, isTransaction, old(epoch.clockDrift))
      decreases maxRetries - retryCount
    {
      var step := TryOnce(net, policy, isTransaction, maxRetries, retryDelay, retryCount, sends, probes, trace, epoch);
      if step.Done? {
        return step.result, step.state;
      }
      retryCount, sends, probes, trace := step.state.retryCount, step.state.sends, step.state.probes, step.state.trace;
    }
    var final := net.send(sends);
    sends := sends + 1;
    if final.Answered? {
      trace := trace + [ResponseReceived(maxRetries, Reply(final.value))];
      return Success(final.value), Exec(retryCount, sends, probes, epoch.clockDrift, trace);
    }
    return Failure(PrecheckException(W.Unknown)), Exec(retryCount, sends, probes, epoch.clockDrift, trace);
  }

  // ---------------------------------------------------------------------------
  // What an execution promises

  function Remaining(maxRetries: int, retryCount: int): nat {
    if maxRetries > retryCount then maxRetries - retryCount else 0
  }

  /** From state `s` the loop sends at most once per remaining try plus the final
      send, and probes at most once per remaining try. */
  lemma {:induction false} RetryLoopBounds(net: Network, policy: Policy, isTransaction: bool, maxRetries: int, delay: int, s: Exec)
    ensures RetryLoop(net, policy, isTransaction, maxRetries, delay, s).1.sends <= s.sends + Remaining(maxRetries, s.retryCount) + 1
    ensures RetryLoop(net, policy, isTransaction, maxRetries, delay, s).1.probes <= s.probes + Remaining(maxRetries, s.retryCount)
    decreases maxRetries - s.retryCount
  {
    if s.retryCount < maxRetries {
      var step := Try(net, policy, isTransaction, maxRetries, delay, s);
      if step.Continue? {
        RetryLoopBounds(net, policy, isTransaction, maxRetries, delay, step.state);
      }
    }
  }

  /** The request is sent at most `maxRetries + 1` times (once when the maximum
      is not positive), and the receipt is probed at most `maxRetries` times. */
  lemma SendsAreBounded(context: C.Settings, net: Network, policy: Policy, isTransaction: bool, drift: int)
    ensures Execute(context, net, policy, isTransaction, drift).1.sends <= Remaining(context.retryCount, 0) + 1
    ensures Execute(context, net, policy, isTransaction, drift).1.probes <= Remaining(context.retryCount, 0)
  {
    RetryLoopBounds(net, policy, isTransaction, context.retryCount, context.retryDelay.ticks, Exec(0, 0, 0, drift, [SendingRequest]));
  }

  /** The trace of tries `lo` up to `hi`, each answered with a response the
      predicate rejected and followed by its backoff. */
  function RetriedTrace(net: Network, delay: int, lo: nat, hi: nat): (r: seq<Event>)
    requires forall i: nat :: lo <= i < hi ==> net.send(i).Answered?
    decreases hi as int - lo
  {
    if lo >= hi then []
    else [ResponseReceived(lo, Reply(net.send(lo).value)), Waited(delay * (lo + 1))] + RetriedTrace(net, delay, lo + 1, hi)
  }

  /** Try `lo + i` contributes its response and then the wait `delay * (lo + i + 1)`. */
  lemma {:induction false} RetriedTraceEntries(net: Network, delay: int, lo: nat, hi: nat)
    requires forall i: nat :: lo <= i < hi ==> net.send(i).Answered?
    ensures |RetriedTrace(net, delay, lo, hi)| == if lo <= hi then 2 * (hi - lo) else 0
    ensures forall i: nat :: i < hi as int - lo ==>
      && RetriedTrace(net, delay, lo, hi)[2 * i] == ResponseReceived(lo + i, Reply(net.send(lo + i).value))
      && RetriedTrace(net, delay, lo, hi)[2 * i + 1] == Waited(delay * (lo + i + 1))
    decreases hi as int - lo
  {
    if lo < hi {
      RetriedTraceEntries(net, delay, lo + 1, hi);
      var rest := RetriedTrace(net, delay, lo + 1, hi);
      var r := [ResponseReceived(lo, Reply(net.send(lo).value)), Waited(delay * (lo + 1))] + rest;
      assert r == RetriedTrace(net, delay, lo, hi);
      forall i: nat | i < hi - lo
        ensures r[2 * i] == ResponseReceived(lo + i, Reply(net.send(lo + i).value))
        ensures r[2 * i + 1] == Waited(delay * (lo + i + 1))
      {
        if i > 0 {
          var j: nat := i - 1;
          assert r[2 * i] == rest[2 * j] && r[2 * i + 1] == rest[2 * j + 1];
        }
      }
    }
  }

  /** The clock drift the retried responses of tries `lo` up to `hi` add. */
  function RetriedDrift(net: Network, policy: Policy, lo: nat, hi: nat): int
    requires forall i: nat :: lo <= i < hi ==> net.send(i).Answered?
    decreases hi as int - lo
  {
    if lo >= hi then 0
    else DriftDelta(policy, net.send(lo).value, net.send(lo).at) + RetriedDrift(net, policy, lo + 1, hi)
  }

  /** One try whose send is answered: the response is reported and goes
      through the retry predicate. */
  lemma TryAnswered(net: Network, policy: Policy, isTransaction: bool, maxRetries: int, delay: int, s: Exec)
    requires s.retryCount < maxRetries && net.send(s.sends).Answered?
    ensures var response := net.send(s.sends).value;
      var s2 := s.(sends := s.sends + 1, trace := s.trace + [ResponseReceived(s.retryCount, Reply(response))],
                   drift := s.drift + DriftDelta(policy, response, net.send(s.sends).at));
      Try(net, policy, isTransaction, maxRetries, delay, s) ==
        if ShouldRetry(policy, response) then Continue(Backoff(s2, delay)) else Done(Success(response), s2)
  {
  }

  /** While every send is answered, each rejected response is followed by the
      backoff `delay * (try + 1)`, and the first accepted one is returned at
      once. */
  lemma {:induction false} AcceptedAfterRetries(net: Network, policy: Policy, isTransaction: bool, maxRetries: int, delay: int, s: Exec, k: nat)
    requires s.retryCount == s.sends <= k < maxRetries
    requires forall i: nat :: s.retryCount <= i <= k ==> net.send(i).Answered?
    requires forall i: nat :: s.retryCount <= i < k ==> ShouldRetry(policy, net.send(i).value)
    requires !ShouldRetry(policy, net.send(k).value)
    ensures var (r, t) := RetryLoop(net, policy, isTransaction, maxRetries, delay, s);
      && r == Success(net.send(k).value)
      && t.sends == k + 1 && t.probes == s.probes
      && t.trace == s.trace + RetriedTrace(net, delay, s.retryCount, k) + [ResponseReceived(k, Reply(net.send(k).value))]
      && t.drift == s.drift + RetriedDrift(net, policy, s.retryCount, k + 1)
    decreases k - s.retryCount
  {
    var rc := s.retryCount;
    var response := net.send(rc).value;
    TryAnswered(net, policy, isTransaction, maxRetries, delay, s);
    var step := Try(net, policy, isTransaction, maxRetries, delay, s);
    if rc < k {
      var t := step.state;
      AcceptedAfterRetries(net, policy, isTransaction, maxRetries, delay, t, k);
      var head := [ResponseReceived(rc, Reply(response)), Waited(delay * (rc + 1))];
      assert t.trace == s.trace + head;
      assert RetriedTrace(net, delay, rc, k) == head + RetriedTrace(net, delay, rc + 1, k);
      assert s.trace + head + RetriedTrace(net, delay, rc + 1, k) == s.trace + RetriedTrace(net, delay, rc, k);
    }
  }

  /** The first response the retry predicate accepts is returned, after exactly
      that many sends, with the backoff waits `d`, `2d`, ... in between. */
  lemma FirstAcceptedIsReturned(context: C.Settings, net: Network, policy: Policy, isTransaction: bool, drift: int, k: nat)
    requires C.GetChannelUrl(context.gateway).Success?
    requires k < context.retryCount
    requires forall i: nat :: i <= k ==> net.send(i).Answered?
    requires forall i: nat :: i < k ==> ShouldRetry(policy, net.send(i).value)
    requires !ShouldRetry(policy, net.send(k).value)
    ensures var (r, t) := Execute(context, net, policy, isTransaction, drift);
      && r == Success(net.send(k).value)
      && t.sends == k + 1 && t.probes == 0
      && t.trace == [SendingRequest] + RetriedTrace(net, context.retryDelay.ticks, 0, k) + [ResponseReceived(k, Reply(net.send(k).value))]
      && t.drift == drift + RetriedDrift(net, policy, 0, k + 1)
  {
    AcceptedAfterRetries(net, policy, isTransaction, context.retryCount, context.retryDelay.ticks, Exec(0, 0, 0, drift, [SendingRequest]), k);
  }

  lemma {:induction false} RetriesUsedUp(net: Network, policy: Policy, isTransaction: bool, maxRetries: int, delay: int, s: Exec)
    requires 0 <= s.retryCount == s.sends
    requires forall i: nat :: s.retryCount <= i < maxRetries ==> net.send(i).Answered? && ShouldRetry(policy, net.send(i).value)
    ensures var (r, t) := RetryLoop(net, policy, isTransaction, maxRetries, delay, s);
      var last := if s.retryCount < maxRetries then maxRetries else s.retryCount;
      && t.sends == last + 1 && t.probes == s.probes
      && (net.send(last).Answered? ==>
            r == Success(net.send(last).value) &&
            t.trace == s.trace + RetriedTrace(net, delay, s.retryCount, last) + [ResponseReceived(maxRetries, Reply(net.send(last).value))])
      && (!net.send(last).Answered? ==> r == Failure(PrecheckException(W.Unknown)))
    decreases maxRetries - s.retryCount
  {
    if s.retryCount < maxRetries {
      var step := Try(net, policy, isTransaction, maxRetries, delay, s);
      RetriesUsedUp(net, policy, isTransaction, maxRetries, delay, step.state);
    }
  }

  /** When every try is answered with a response the predicate rejects, one final
      send follows; its response is returned whatever it is and reported with
      `maxRetries` as its try number, and a failed final send is a precheck
      failure with status `Unknown`. */
  lemma ExhaustedRetriesEndWithFinalSend(context: C.Settings, net: Network, policy: Policy, isTransaction: bool, drift: int)
    requires C.GetChannelUrl(context.gateway).Success?
    requires forall i: nat :: i < context.retryCount ==> net.send(i).Answered? && ShouldRetry(policy, net.send(i).value)
    ensures var (r, t) := Execute(context, net, policy, isTransaction, drift);
      var last := Remaining(context.retryCount, 0);
      && t.sends == last + 1 && t.probes == 0
      && (net.send(last).Answered? ==>
            r == Success(net.send(last).value) &&
            t.trace == [SendingRequest] + RetriedTrace(net, context.retryDelay.ticks, 0, last)
                       + [ResponseReceived(context.retryCount, Reply(net.send(last).value))])
      && (!net.send(last).Answered? ==> r == Failure(PrecheckException(W.Unknown)))
  {
    RetriesUsedUp(net, policy, isTransaction, context.retryCount, context.retryDelay.ticks, Exec(0, 0, 0, drift, [SendingRequest]));
  }

  /** The trace of unanswered probes at tries `lo` up to `hi`. */
  function UnavailableProbes(delay: int, lo: int, hi: int): (r: seq<Event>)
    decreases hi - lo
  {
    if lo >= hi then [] else [ResponseReceived(lo, UnavailableNotice), Waited(delay * (lo + 1))] + UnavailableProbes(delay, lo + 1, hi)
  }

  /** Try `lo + i` reports the node unavailable and then waits `delay * (lo + i + 1)`. */
  lemma {:induction false} UnavailableProbesEntries(delay: int, lo: int, hi: int)
    ensures |UnavailableProbes(delay, lo, hi)| == if lo <= hi then 2 * (hi - lo) else 0
    ensures forall i: nat :: i < hi - lo ==>
      && UnavailableProbes(delay, lo, hi)[2 * i] == ResponseReceived(lo + i, UnavailableNotice)
      && UnavailableProbes(delay, lo, hi)[2 * i + 1] == Waited(delay * (lo + i + 1))
    decreases hi - lo
  {
    if lo < hi {
      UnavailableProbesEntries(delay, lo + 1, hi);
      var rest := UnavailableProbes(delay, lo + 1, hi);
      var r := [ResponseReceived(lo, UnavailableNotice), Waited(delay * (lo + 1))] + rest;
      assert r == UnavailableProbes(delay, lo, hi);
      forall i: nat | i < hi - lo
        ensures r[2 * i] == ResponseReceived(lo + i, UnavailableNotice)
        ensures r[2 * i + 1] == Waited(delay * (lo + i + 1))
      {
        if i > 0 {
          var j: nat := i - 1;
          assert r[2 * i] == rest[2 * j] && r[2 * i + 1] == rest[2 * j + 1];
        }
      }
    }
  }

  /** Every unanswered probe uses up one try of the shared retry count. */
  lemma {:induction false} ProbesUseUpRetries(net: Network, maxRetries: int, delay: int, s: Exec)
    requires s.retryCount <= maxRetries
    requires forall i: nat :: s.probes <= i < s.probes + (maxRetries - s.retryCount) ==> net.probe(i).Unavailable?
    ensures var (outcome, t) := ProbeLoop(net, maxRetries, delay, s);
      && outcome == Exhausted
      && t.retryCount == maxRetries && t.probes == s.probes + (maxRetries - s.retryCount)
      && t.trace == s.trace + UnavailableProbes(delay, s.retryCount, maxRetries)
    decreases maxRetries - s.retryCount
  {
    if s.retryCount < maxRetries {
      var s1 := s.(probes := s.probes + 1, trace := s.trace + [ResponseReceived(s.retryCount, UnavailableNotice)]);
      ProbesUseUpRetries(net, maxRetries, delay, Backoff(s1, delay));
    }
  }

  /** A transaction whose first send finds the node unavailable, and whose
      receipt probes all find it unavailable too, uses up every try on the
      probes: no second send is made and the synthetic `Unknown` answer is
      returned. */
  lemma UnreachableTransactionReturnsUnknown(context: C.Settings, net: Network, policy: Policy, drift: int)
    requires C.GetChannelUrl(context.gateway).Success?
    requires context.retryCount >= 1
    requires net.send(0).Unavailable?
    requires forall i: nat :: i < context.retryCount ==> net.probe(i).Unavailable?
    ensures var (r, t) := Execute(context, net, policy, true, drift);
      && r == Success(Response(Some(W.Unknown)))
      && t.sends == 1 && t.probes == context.retryCount
      && t.trace == [SendingRequest, ResponseReceived(0, UnavailableNotice), Waited(0)]
                    + UnavailableProbes(context.retryDelay.ticks, 0, context.retryCount)
                    + [ResponseReceived(context.retryCount, Reply(Response(Some(W.Unknown))))]
      && t.drift == drift
  {
    var d := context.retryDelay.ticks;
    var start := Exec(0, 0, 0, drift, [SendingRequest]);
    var s := Exec(0, 1, 0, drift, [SendingRequest, ResponseReceived(0, UnavailableNotice), Waited(d * 0)]);
    ProbesUseUpRetries(net, context.retryCount, d, s);
    var probed := ProbeLoop(net, context.retryCount, d, s);
    var s1 := start.(sends := 1, trace := [SendingRequest] + [ResponseReceived(0, UnavailableNotice)]);
    assert s1.(trace := s1.trace + [Waited(d * 0)]) == s;
    assert Try(net, policy, true, context.retryCount, d, start) == AfterProbe(policy, context.retryCount, d, probed.0, probed.1);
    var receipt := Response(Some(W.Unknown));
    assert !ShouldRetry(policy, receipt) && DriftDelta(policy, receipt, 0) == 0;
    var after := probed.1.(trace := probed.1.trace + [ResponseReceived(context.retryCount, Reply(receipt))]);
    assert AfterProbe(policy, context.retryCount, d, probed.0, probed.1) == Done(Success(receipt), after);
    assert Execute(context, net, policy, true, drift) == RetryLoop(net, policy, true, context.retryCount, d, start);
  }

  /** A receipt found by the probe that the predicate accepts is returned
      without sending the request again. */
  lemma ReceiptReturnedWithoutResend(net: Network, policy: Policy, maxRetries: int, delay: int, s: Exec, code: W.Code, at: int)
    requires s.retryCount < maxRetries
    requires net.send(s.sends).Unavailable? && net.probe(s.probes) == Answered(code, at)
    requires code != W.ReceiptNotFound && !ShouldRetry(policy, Response(Some(code)))
    ensures var (r, t) := RetryLoop(net, policy, true, maxRetries, delay, s);
      && r == Success(Response(Some(code)))
      && t.sends == s.sends + 1 && t.probes == s.probes + 1 && t.retryCount == s.retryCount
      && t.trace == s.trace + [ResponseReceived(s.retryCount, UnavailableNotice), Waited(delay * s.retryCount),
                               ResponseReceived(s.retryCount, Reply(Response(Some(code))))]
  {
  }

  /** Every failure is either the missing gateway or a precheck failure with
      status `Unknown` standing for an RPC error. */
  lemma {:induction false} RetryLoopFailures(net: Network, policy: Policy, isTransaction: bool, maxRetries: int, delay: int, s: Exec)
    ensures RetryLoop(net, policy, isTransaction, maxRetries, delay, s).0.Failure? ==>
      RetryLoop(net, policy, isTransaction, maxRetries, delay, s).0.error == PrecheckException(W.Unknown)
    decreases maxRetries - s.retryCount
  {
    if s.retryCount < maxRetries {
      var step := Try(net, policy, isTransaction, maxRetries, delay, s);
      if step.Continue? {
        RetryLoopFailures(net, policy, isTransaction, maxRetries, delay, step.state);
      }
    }
  }

  lemma ExecutionFailures(context: C.Settings, net: Network, policy: Policy, isTransaction: bool, drift: int)
    ensures var r := Execute(context, net, policy, isTransaction, drift).0;
      && (C.GetChannelUrl(context.gateway).Failure? <==> r == Failure(InvalidOperationException(C.NoGatewayMessage)))
      && (r.Failure? ==> r.error == PrecheckException(W.Unknown) || r.error == InvalidOperationException(C.NoGatewayMessage))
  {
    RetryLoopFailures(net, policy, isTransaction, context.retryCount, context.retryDelay.ticks, Exec(0, 0, 0, drift, [SendingRequest]));
  }

  /** Try `k` ends in an RPC error other than unavailability: its send fails
      so, or, for a transaction, its send is unavailable and the receipt probe
      that follows fails so. */
  predicate RpcErrorAt(net: Network, isTransaction: bool, k: nat, probe: nat) {
    || net.send(k).RpcFailure?
    || (isTransaction && net.send(k).Unavailable? && net.probe(probe).RpcFailure?)
  }

  /** After retried answers, an RPC error ends the loop at once with
      `PrecheckException(Unknown)`: nothing is sent after it. */
  lemma {:induction false} RpcErrorEndsRetryLoop(net: Network, policy: Policy, isTransaction: bool, maxRetries: int, delay: int, s: Exec, k: nat)
    requires s.retryCount == s.sends <= k < maxRetries
    requires forall i: nat :: s.retryCount <= i < k ==> net.send(i).Answered? && ShouldRetry(policy, net.send(i).value)
    requires RpcErrorAt(net, isTransaction, k, s.probes)
    ensures var (r, t) := RetryLoop(net, policy, isTransaction, maxRetries, delay, s);
      && r == Failure(PrecheckException(W.Unknown))
      && t.sends == k + 1
      && t.probes == s.probes + (if net.send(k).RpcFailure? then 0 else 1)
    decreases k - s.retryCount
  {
    var rc := s.retryCount;
    if rc < k {
      TryAnswered(net, policy, isTransaction, maxRetries, delay, s);
      var step := Try(net, policy, isTransaction, maxRetries, delay, s);
      RpcErrorEndsRetryLoop(net, policy, isTransaction, maxRetries, delay, step.state, k);
    } else if net.send(k).Unavailable? {
      var s1 := s.(sends := s.sends + 1);
      var s2 := s1.(trace := s1.trace + [ResponseReceived(rc, UnavailableNotice)]);
      var s3 := s2.(trace := s2.trace + [Waited(delay * rc)]);
      assert ProbeLoop(net, maxRetries, delay, s3).0 == ProbeFailed;
    }
  }

  /** Over a whole execution: after `k` retried answers, an RPC error at try
      `k`, from the send or from the receipt probe, fails the request as
      `PrecheckException(Unknown)` after exactly `k + 1` sends. */
  lemma RpcErrorEndsExecution(context: C.Settings, net: Network, policy: Policy, isTransaction: bool, drift: int, k: nat)
    requires C.GetChannelUrl(context.gateway).Success?
    requires k < context.retryCount
    requires forall i: nat :: i < k ==> net.send(i).Answered? && ShouldRetry(policy, net.send(i).value)
    requires RpcErrorAt(net, isTransaction, k, 0)
    ensures var (r, t) := Execute(context, net, policy, isTransaction, drift);
      && r == Failure(PrecheckException(W.Unknown))
      && t.sends == k + 1
      && t.probes == (if net.send(k).RpcFailure? then 0 else 1)
  {
    RpcErrorEndsRetryLoop(net, policy, isTransaction, context.retryCount, context.retryDelay.ticks, Exec(0, 0, 0, drift, [SendingRequest]), k);
  }

  /** No answered send carries `InvalidTransactionStart`, and no answered probe
      reads it. */
  ghost predicate NeverRejectsStart(net: Network) {
    && (forall n: nat :: net.send(n).Answered? ==> net.send(n).value.header != Some(W.InvalidTransactionStart))
    && (forall n: nat :: net.probe(n).Answered? ==> net.probe(n).value != W.InvalidTransactionStart)
  }

  /** A receipt the probe ends with is one the network answered. */
  lemma {:induction false} ProbedReceiptIsAnswered(net: Network, maxRetries: int, delay: int, s: Exec)
    requires NeverRejectsStart(net)
    ensures var outcome := ProbeLoop(net, maxRetries, delay, s).0;
      outcome.Receipt? ==> outcome.code != W.InvalidTransactionStart
    decreases maxRetries - s.retryCount
  {
    if s.retryCount < maxRetries && net.probe(s.probes).Unavailable? {
      var s1 := s.(probes := s.probes + 1);
      var s2 := s1.(trace := s1.trace + [ResponseReceived(s.retryCount, UnavailableNotice)]);
      ProbedReceiptIsAnswered(net, maxRetries, delay, Backoff(s2, delay));
    }
  }

  /** One try runs the same under both predicates when no start is rejected. */
  lemma TryAgreesWithoutRejectedStart(net: Network, isTransaction: bool, maxRetries: int, delay: int, s: Exec, start: int)
    requires s.retryCount < maxRetries && NeverRejectsStart(net)
    ensures Try(net, RetryOnBusy, isTransaction, maxRetries, delay, s) ==
      Try(net, RetryOnBusyOrInvalidStart(false, start), isTransaction, maxRetries, delay, s)
  {
    var rc := s.retryCount;
    var s1 := s.(sends := s.sends + 1);
    if net.send(s.sends).Unavailable? && isTransaction {
      var s2 := s1.(trace := s1.trace + [ResponseReceived(rc, UnavailableNotice)]);
      ProbedReceiptIsAnswered(net, maxRetries, delay, s2.(trace := s2.trace + [Waited(delay * rc)]));
    }
  }

  /** The unsigned predicate and a signed one that does not track drift differ
      only on a rejected start time: a network that never rejects one gives the
      same result, sends, probes, drift and trace under both. */
  lemma {:induction false} RetryLoopAgreesWithoutRejectedStart(net: Network, isTransaction: bool, maxRetries: int, delay: int, s: Exec, start: int)
    requires NeverRejectsStart(net)
    ensures RetryLoop(net, RetryOnBusy, isTransaction, maxRetries, delay, s) ==
      RetryLoop(net, RetryOnBusyOrInvalidStart(false, start), isTransaction, maxRetries, delay, s)
    decreases maxRetries - s.retryCount
  {
    if s.retryCount < maxRetries {
      TryAgreesWithoutRejectedStart(net, isTransaction, maxRetries, delay, s, start);
      var step := Try(net, RetryOnBusy, isTransaction, maxRetries, delay, s);
      if step.Continue? {
        RetryLoopAgreesWithoutRejectedStart(net, isTransaction, maxRetries, delay, step.state, start);
      }
    }
  }

  lemma PoliciesAgreeWithoutRejectedStart(context: C.Settings, net: Network, isTransaction: bool, drift: int, start: int)
    requires NeverRejectsStart(net)
    ensures Execute(context, net, RetryOnBusy, isTransaction, drift) ==
      Execute(context, net, RetryOnBusyOrInvalidStart(false, start), isTransaction, drift)
  {
    RetryLoopAgreesWithoutRejectedStart(net, isTransaction, context.retryCount, context.retryDelay.ticks,
      Exec(0, 0, 0, drift, [SendingRequest]), start);
  }

  /** The loop always ends with at least one more send. */
  lemma {:induction false} RetryLoopSends(net: Network, policy: Policy, isTransaction: bool, maxRetries: int, delay: int, s: Exec)
    ensures RetryLoop(net, policy, isTransaction, maxRetries, delay, s).1.sends > s.sends
    decreases maxRetries - s.retryCount
  {
    if s.retryCount < maxRetries {
      var step := Try(net, policy, isTransaction, maxRetries, delay, s);
      if step.Continue? {
        RetryLoopSends(net, policy, isTransaction, maxRetries, delay, step.state);
      }
    }
  }

  /** A rejected start time is where the two predicates part: the unsigned one
      returns the rejection after one send, a signed one sends again. */
  lemma RejectedStartSeparatesPolicies(context: C.Settings, net: Network, isTransaction: bool, drift: int, track: bool, start: int, at: int)
    requires C.GetChannelUrl(context.gateway).Success? && 0 < context.retryCount
    requires net.send(0) == Answered(Response(Some(W.InvalidTransactionStart)), at)
    ensures Execute(context, net, RetryOnBusy, isTransaction, drift).0 == Success(Response(Some(W.InvalidTransactionStart)))
    ensures Execute(context, net, RetryOnBusy, isTransaction, drift).1.sends == 1
    ensures Execute(context, net, RetryOnBusyOrInvalidStart(track, start), isTransaction, drift).1.sends >= 2
  {
    var s := Exec(0, 0, 0, drift, [SendingRequest]);
    var policy := RetryOnBusyOrInvalidStart(track, start);
    TryAnswered(net, RetryOnBusy, isTransaction, context.retryCount, context.retryDelay.ticks, s);
    TryAnswered(net, policy, isTransaction, context.retryCount, context.retryDelay.ticks, s);
    var step := Try(net, policy, isTransaction, context.retryCount, context.retryDelay.ticks, s);
    RetryLoopSends(net, policy, isTransaction, context.retryCount, context.retryDelay.ticks, step.state);
  }

  /** A predicate that does not track drift never changes it. */
  lemma {:induction false} RetryLoopKeepsDrift(net: Network, policy: Policy, isTransaction: bool, maxRetries: int, delay: int, s: Exec)
    requires !(policy.RetryOnBusyOrInvalidStart? && policy.trackDrift)
    ensures RetryLoop(net, policy, isTransaction, maxRetries, delay, s).1.drift == s.drift
    decreases maxRetries - s.retryCount
  {
    if s.retryCount < maxRetries {
      var step := Try(net, policy, isTransaction, maxRetries, delay, s);
      if step.Continue? {
        RetryLoopKeepsDrift(net, policy, isTransaction, maxRetries, delay, step.state);
      }
    }
  }

  // ---------------------------------------------------------------------------
  // Unsigned queries and signed requests

  /** An unsigned cost query: retried on `Busy` only; afterwards anything but an
      `Ok` precheck code (a missing header counting as `Unknown`) fails with
      that code. */
  function UnsignedAsk(context: C.Settings, net: Network, drift: int): (r: Result<Response, ExecError>)
    ensures r.Success? ==> r.value.header == Some(W.Ok)
    ensures r.Success? <==> Execute(context, net, RetryOnBusy, false, drift).0 == Success(Response(Some(W.Ok)))
    ensures var x := Execute(context, net, RetryOnBusy, false, drift).0;
      x.Success? && CodeOf(x.value) != W.Ok ==> r == Failure(PrecheckException(CodeOf(x.value)))
    ensures var x := Execute(context, net, RetryOnBusy, false, drift).0;
      x.Failure? ==> r == Failure(x.error)
    ensures Execute(context, net, RetryOnBusy, false, drift).0 == Success(Response(None)) ==>
      r == Failure(PrecheckException(W.Unknown))
  {
    match Execute(context, net, RetryOnBusy, false, drift).0
    case Failure(e) => Failure(e)
    case Success(answer) =>
      if CodeOf(answer) != W.Ok then Failure(PrecheckException(CodeOf(answer))) else Success(answer)
  }

  method ExecuteUnsignedAskRequestWithRetry(context: C.Settings, net: Network, epoch: Epoch) returns (r: Result<Response, ExecError>)
    modifies epoch
    ensures r == UnsignedAsk(context, net, old(epoch.clockDrift))
    ensures epoch.clockDrift == old(epoch.clockDrift)
  {
    var answer, run := ExecuteNetworkRequestWithRetry(context, net, RetryOnBusy, false, epoch);
    RetryLoopKeepsDrift(net, RetryOnBusy, false, context.retryCount, context.retryDelay.ticks, Exec(0, 0, 0, old(epoch.clockDrift), [SendingRequest]));
    if answer.Failure? {
      return Failure(answer.error);
    }
    var code := CodeOf(answer.value);
    if code != W.Ok {
      return Failure(PrecheckException(code));
    }
    r := answer;
  }

  /** The predicate of a signed request: drift is tracked only when the context
      asks for it and no transaction id is pinned, from the instant read before
      the first send. */
  function SignedPolicy(context: C.Settings, clockNow: int): (p: Policy)
    ensures p.RetryOnBusyOrInvalidStart?
    ensures p.trackDrift <==> context.adjustForLocalClockDrift && context.transaction.None?
    ensures p.trackDrift ==> p.startingInstant == clockNow
  {
    var trackTimeDrift := context.adjustForLocalClockDrift && context.transaction.None?;
    RetryOnBusyOrInvalidStart(trackTimeDrift, if trackTimeDrift then clockNow else 0)
  }

  /** Drift changes only when it is tracked. */
  lemma SignedDriftOnlyWhenTracking(context: C.Settings, net: Network, clockNow: int, isTransaction: bool, drift: int)
    requires !context.adjustForLocalClockDrift || context.transaction.Some?
    ensures Execute(context, net, SignedPolicy(context, clockNow), isTransaction, drift).1.drift == drift
  {
    if C.GetChannelUrl(context.gateway).Success? {
      RetryLoopKeepsDrift(net, SignedPolicy(context, clockNow), isTransaction, context.retryCount, context.retryDelay.ticks,
                          Exec(0, 0, 0, drift, [SendingRequest]));
    }
  }

  /** A rejected start time followed by an accepted response adds the time the
      rejection arrived after the start, and nothing else. */
  lemma RejectedStartAddsDrift(context: C.Settings, net: Network, clockNow: int, isTransaction: bool, drift: int, rejectedAt: int, answer: Response, answeredAt: int)
    requires C.GetChannelUrl(context.gateway).Success? && context.retryCount >= 2
    requires context.adjustForLocalClockDrift && context.transaction.None?
    requires net.send(0) == Answered(Response(Some(W.InvalidTransactionStart)), rejectedAt)
    requires net.send(1) == Answered(answer, answeredAt)
    requires CodeOf(answer) !in {W.Busy, W.InvalidTransactionStart}
    ensures var (r, t) := Execute(context, net, SignedPolicy(context, clockNow), isTransaction, drift);
      r == Success(answer) && t.drift == drift + (rejectedAt - clockNow) && t.sends == 2
  {
    var policy := SignedPolicy(context, clockNow);
    FirstAcceptedIsReturned(context, net, policy, isTransaction, drift, 1);
    assert RetriedDrift(net, policy, 2, 2) == 0;
  }

  method ExecuteSignedRequestWithRetry(context: C.Settings, net: Network, clockNow: int, isTransaction: bool, epoch: Epoch)
    returns (r: Result<Response, ExecError>, run: Exec)
    modifies epoch
    ensures (r, run) == Execute(context, net, SignedPolicy(context, clockNow), isTransaction, old(epoch.clockDrift))
    ensures epoch.clockDrift == run.drift
  {
    var trackTimeDrift := context.adjustForLocalClockDrift && context.transaction.None?;
    var startingInstant := if trackTimeDrift then clockNow else 0;
    r, run := ExecuteNetworkRequestWithRetry(context, net, RetryOnBusyOrInvalidStart(trackTimeDrift, startingInstant), isTransaction, epoch);
  }

  // ---------------------------------------------------------------------------
  // Handler fan-out

  /** A call of the handler with the given handle. */
  datatype Call = Call(handler: nat, event: Event)

  /** Calls every configured handler, in order, skipping unset ones. */
  method NotifyHandlers(handlers: seq<Option<nat>>, event: Event) returns (calls: seq<Call>)
    ensures |calls| == |Present(handlers)|
    ensures forall i :: 0 <= i < |calls| ==> calls[i] == Call(Present(handlers)[i], event)
  {
    var live := [];
    for i := 0 to |handlers|
      invariant live == Present(handlers[..i])
    {
      assert handlers[..i + 1][..i] == handlers[..i];
      if handlers[i].Some? {
        live := live + [handlers[i].value];
      }
    }
    assert handlers[..|handlers|] == handlers;
    calls := [];
    for i := 0 to |live|
      invariant |calls| == i
      invariant forall j :: 0 <= j < i ==> calls[j] == Call(live[j], event)
    {
      calls := calls + [Call(live[i], event)];
    }
  }
}
