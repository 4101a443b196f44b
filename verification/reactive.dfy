/**
 * The two document-triggered handlers: product creation and product update.
 * The token list read from the store, the transport's outcome and the outcome
 * of the history write are inputs; a run reports what the handler did.
 */
module Reactive {
  import opened Base
  import opened Messages
  import opened Delivery
  import LowStock

  /** The server-assigned creation time, a placeholder resolved by the store. */
  datatype Timestamp = ServerTimestamp

  /** One entry of the notification history collection. */
  datatype HistoryRecord = HistoryRecord(
    title: string,
    body: string,
    data: Data,
    successCount: nat,
    failureCount: nat,
    createdAt: Timestamp)

  /** Whether the store accepted the history entry or the write threw. */
  datatype WriteOutcome = Written | WriteFailed(message: string)

  /**
   * What one invocation did: whether it read the token collection, the send it
   * issued, the history write it issued (whether or not the store accepted
   * it), and the value it resolved with (None is the handler returning null).
   */
  datatype Run = Run(
    tokensRead: bool,
    dispatch: Option<Dispatch>,
    history: Option<HistoryRecord>,
    returned: Option<DispatchResult>)

  /** `record` logs `message` together with the counts of `response`, unchanged. */
  predicate Logs(record: HistoryRecord, message: Message, response: DispatchResult) {
    && record.title == message.title
    && record.body == message.body
    && record.data == message.data
    && record.successCount == response.successCount
    && record.failureCount == response.failureCount
  }

  /**
   * The rules every run obeys, whatever the handler: a send only to a
   * non-empty token list, a history entry only after a send that resolved,
   * and a returned response only as the transport reported it.
   */
  predicate Coherent(run: Run, tokens: seq<string>, sent: SendOutcome) {
    && (run.dispatch.Some? ==> run.tokensRead && run.dispatch.value.target == Devices(tokens) && |tokens| > 0)
    && (run.history.Some? ==>
          run.dispatch.Some? && sent.Ok? && Logs(run.history.value, run.dispatch.value.message, sent.response))
    && (run.returned.Some? ==> run.dispatch.Some? && sent.Ok? && run.returned.value == sent.response)
  }

  /** The product-created handler for document `productId`. */
  function OnProductCreated(
    productId: string, product: Product, tokens: seq<string>, sent: SendOutcome, stored: WriteOutcome): (run: Run)
    ensures run.tokensRead
    ensures run.dispatch.Some? <==> |tokens| > 0
    ensures run.dispatch.Some? ==>
      run.dispatch.value == Dispatch(Devices(tokens), ComposeCreated(productId, product), CreatedOptions)
    ensures run.history.Some? <==> |tokens| > 0 && sent.Ok?
    ensures run.history.Some? ==>
      Logs(run.history.value, ComposeCreated(productId, product), sent.response)
    ensures run.returned.Some? <==> |tokens| > 0 && sent.Ok? && stored.Written?
    ensures Coherent(run, tokens, sent)
  {
    if |tokens| == 0 then Run(true, None, None, None)
    else
      var message := ComposeCreated(productId, product);
      var dispatch := Dispatch(Devices(tokens), message, CreatedOptions);
      match sent
      case Err(_) => Run(true, Some(dispatch), None, None)
      case Ok(response) =>
        var record := HistoryRecord(
          message.title, message.body, message.data,
          response.successCount, response.failureCount, ServerTimestamp);
        Run(true, Some(dispatch), Some(record), if stored.Written? then Some(response) else None)
  }

  /** The product-updated handler for document `productId`, given the snapshots before and after. */
  function OnStockUpdate(
    productId: string, before: Product, after: Product, tokens: seq<string>, sent: SendOutcome): (run: Run)
    ensures run.tokensRead <==> LowStock.CrossesBelow(before.stock, after.stock)
    ensures run.dispatch.Some? <==> LowStock.CrossesBelow(before.stock, after.stock) && |tokens| > 0
    ensures run.dispatch.Some? ==>
      run.dispatch.value == Dispatch(Devices(tokens), ComposeLowStock(productId, after), LowStockOptions)
    ensures run.history.None?
    ensures run.returned.Some? <==> run.dispatch.Some? && sent.Ok?
    ensures Coherent(run, tokens, sent)
  {
    if !LowStock.CrossesBelow(before.stock, after.stock) then Run(false, None, None, None)
    else if |tokens| == 0 then Run(true, None, None, None)
    else
      var dispatch := Dispatch(Devices(tokens), ComposeLowStock(productId, after), LowStockOptions);
      match sent
      case Err(_) => Run(true, Some(dispatch), None, None)
      case Ok(response) => Run(true, Some(dispatch), None, Some(response))
  }

  /** With no registered tokens neither handler sends, records or returns anything. */
  lemma NoTokensNoEffect(
    productId: string, product: Product, before: Product, after: Product, sent: SendOutcome, stored: WriteOutcome)
    ensures var run := OnProductCreated(productId, product, [], sent, stored);
      run.dispatch.None? && run.history.None? && run.returned.None?
    ensures var run := OnStockUpdate(productId, before, after, [], sent);
      run.dispatch.None? && run.history.None? && run.returned.None?
  {
  }

  /** A send that throws leaves no history entry and makes either handler return null. */
  lemma SendErrorLeavesNoTrace(
    productId: string, product: Product, before: Product, after: Product,
    tokens: seq<string>, message: string, stored: WriteOutcome)
    ensures var run := OnProductCreated(productId, product, tokens, Err(message), stored);
      run.history.None? && run.returned.None?
    ensures var run := OnStockUpdate(productId, before, after, tokens, Err(message));
      run.history.None? && run.returned.None?
  {
  }

  /** Of two consecutive updates of one product, at most one sends a low-stock alert. */
  lemma ConsecutiveUpdatesAlertOnce(
    productId: string, a: Product, b: Product, c: Product,
    tokens1: seq<string>, sent1: SendOutcome, tokens2: seq<string>, sent2: SendOutcome)
    ensures !(OnStockUpdate(productId, a, b, tokens1, sent1).dispatch.Some?
           && OnStockUpdate(productId, b, c, tokens2, sent2).dispatch.Some?)
  {
  }
}
