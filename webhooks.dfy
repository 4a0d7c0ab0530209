/**
 * The webhook receiver of up/webhooks.go: read the body, decode and check
 * the `X-Up-Authenticity-Signature` HMAC on the raw bytes, unmarshal the
 * event, resolve its request series and, for an event that names a
 * transaction, fetch it and count it.
 *
 * The body read, the header value, what `json.Unmarshal` produced and the
 * answer to the transaction fetch are inputs; HMAC-SHA256 is the handler's
 * function-valued field `hmac`.
 */
module Webhooks {
  import opened Wrappers
  import opened Http
  import Hex
  import Metrics

  type Bytes = seq<Hex.byte>

  /** A `WebhookEventResource`, as far as the handler reads it. */
  datatype WebhookEvent = WebhookEvent(eventType: string, webhookId: string, transaction: Option<string>)

  /** The zero value `json.Unmarshal` starts from. */
  const ZeroEvent: WebhookEvent := WebhookEvent("", "", None)

  /**
   * What `json.Unmarshal(body, data)` left in `data` and the error it returned.
   * A syntax error leaves `data` zero; a type error can leave fields set.
   */
  datatype Unmarshalled = Unmarshalled(data: WebhookEvent, err: Option<string>)

  /** A `TransactionResource`, as far as `handleTransaction` reads it. */
  datatype Transaction = Transaction(accountId: string, status: string, amount: Money)

  /** The label tuple of `up_bank_webhook_requests`: (webhook_id, event_type). */
  datatype WebhookLabels = WebhookLabels(webhookId: string, eventType: string)

  /**
   * The label map `handleTransaction` builds: account_id, status and
   * currency_code, although both transaction vectors declare only
   * account_id and status.
   */
  datatype TransactionLabels = TransactionLabels(accountId: string, status: string, currencyCode: string)

  function LabelsOf(event: WebhookEvent): WebhookLabels
  {
    WebhookLabels(event.webhookId, event.eventType)
  }

  function TransactionLabelsOf(t: Transaction): TransactionLabels
  {
    TransactionLabels(t.accountId, t.status, t.amount.currencyCode)
  }

  /**
   * What the sender sees: a status line, or nothing because the handler
   * panicked and the server dropped the request.
   */
  datatype Reply = Replied(status: int) | Aborted

  /** The observable steps of one request, in the order they happen. */
  datatype Step =
    | ReadBody
    | DecodeSignature
    | ComputeMac
    | Unmarshal
    | ResolveRequestSeries
    | FetchTransaction(id: string)
    | CountTransaction

  /** The signature bytes a header carries: its hex decoding, when that succeeds and is not empty. */
  function Signature(header: string): Option<Bytes>
  {
    var decoded := Hex.Decode(header);
    if decoded.Some? && |decoded.value| > 0 then decoded else None
  }

  /** A header yields no signature exactly when it is absent (empty) or not well-formed hex. */
  lemma SignatureRejects(header: string)
    ensures Signature(header).None? <==> header == "" || !Hex.WellFormed(header)
  {
    Hex.DecodeSucceedsIff(header);
  }

  /** The hex rendering of a non-empty MAC is read back as that MAC. */
  lemma SignatureOfEncoding(mac: Bytes)
    requires |mac| > 0
    ensures Signature(Hex.Encode(mac)) == Some(mac)
  {
    Hex.DecodeEncode(mac);
  }

  /** The metrics of up/webhooks.go. */
  class Counters {
    var webhookRequests: map<WebhookLabels, int>
    var webhookInflights: int
    var transactionCount: map<TransactionLabels, int>
    var transactionAmount: map<TransactionLabels, int>

    constructor ()
      ensures webhookRequests == map[] && webhookInflights == 0
      ensures transactionCount == map[] && transactionAmount == map[]
    {
      webhookRequests, webhookInflights := map[], 0;
      transactionCount, transactionAmount := map[], map[];
    }
  }

  /** `UpWebhookHandler`. */
  class UpWebhookHandler {
    const secretKey: Bytes
    /** HMAC-SHA256 of a message under a key. */
    const hmac: (Bytes, Bytes) -> Bytes
    /** Whether the API client field `c` is set (non-nil). */
    const hasClient: bool
    const metrics: Counters

    /**
     * A handler whose client field is set or not; the package itself builds
     * one only through `NewUpWebhookHandler`, with `c` nil.
     */
    constructor (secretKey: Bytes, hmac: (Bytes, Bytes) -> Bytes, hasClient: bool, metrics: Counters)
      ensures this.secretKey == secretKey && this.hmac == hmac
      ensures this.hasClient == hasClient && this.metrics == metrics
    {
      this.secretKey, this.hmac := secretKey, hmac;
      this.hasClient, this.metrics := hasClient, metrics;
    }

    /** `NewUpWebhookHandler`: sets the secret key and leaves the client nil. */
    constructor New(secretKey: Bytes, hmac: (Bytes, Bytes) -> Bytes, metrics: Counters)
      ensures this.secretKey == secretKey && this.hmac == hmac && this.metrics == metrics
      ensures !hasClient
    {
      this.secretKey, this.hmac := secretKey, hmac;
      this.hasClient, this.metrics := false, metrics;
    }

    /** `authenticate`: the body's MAC under the secret key equals the signature, byte for byte (`hmac.Equal`). */
    function Authenticate(body: Bytes, signature: Bytes): (r: bool)
      ensures r <==> |hmac(secretKey, body)| == |signature|
                     && forall i :: 0 <= i < |signature| ==> hmac(secretKey, body)[i] == signature[i]
    {
      hmac(secretKey, body) == signature
    }

    /** A request that passes both signature checks of `ServeHTTP`. */
    predicate Authentic(body: Result<Bytes, Error>, header: string)
    {
      body.Success? && Signature(header).Some? && Authenticate(body.value, Signature(header).value)
    }

    /** The requests that pass are exactly those whose header is the hex of the body's non-empty MAC. */
    lemma AuthenticIff(body: Bytes, header: string)
      ensures Authentic(Success(body), header) <==>
        Hex.WellFormed(header) && |hmac(secretKey, body)| > 0 && Hex.Decode(header) == Some(hmac(secretKey, body))
    {
      Hex.DecodeSucceedsIff(header);
    }

    /** A sender that signs the body and hex-encodes the MAC is let through. */
    lemma SignedBodyAuthentic(body: Bytes)
      requires |hmac(secretKey, body)| > 0
      ensures Authentic(Success(body), Hex.Encode(hmac(secretKey, body)))
    {
      SignatureOfEncoding(hmac(secretKey, body));
    }

    /** Changing any one byte of a matching signature makes it fail. */
    lemma AlteredSignatureRejected(body: Bytes, signature: Bytes, i: nat, b: Hex.byte)
      requires Authenticate(body, signature)
      requires i < |signature| && signature[i] != b
      ensures !Authenticate(body, signature[i := b])
    {
      assert signature[i := b][i] != signature[i];
    }

    /** Whether handling `event` panics: it names a transaction and the client is nil, or the fetch answered without a `JSON200`. */
    predicate Panics(event: WebhookEvent, fetch: FetchResult<Transaction>)
    {
      event.transaction.Some? && (!hasClient || fetch == Fetched(None))
    }

    /** Whether the transaction counters move for `event`: the fetch happened and answered with a transaction. */
    predicate Counts(event: WebhookEvent, fetch: FetchResult<Transaction>)
    {
      event.transaction.Some? && hasClient && fetch.Fetched? && fetch.json200.Some?
    }

    /** The steps `handleWebhookRequest` takes for `event`. */
    function EventSteps(event: WebhookEvent, fetch: FetchResult<Transaction>): seq<Step>
    {
      [ResolveRequestSeries]
      + (if event.transaction.None? || !hasClient then []
         else [FetchTransaction(event.transaction.value)] + (if Counts(event, fetch) then [CountTransaction] else []))
    }

    /** A transaction is fetched, once and by the id the event names, exactly when the event names one and the client is set. */
    lemma FetchIffReferenced(event: WebhookEvent, fetch: FetchResult<Transaction>, id: string)
      ensures FetchTransaction(id) in EventSteps(event, fetch) <==> hasClient && event.transaction == Some(id)
      ensures CountTransaction in EventSteps(event, fetch) <==> Counts(event, fetch)
    {
      var steps := EventSteps(event, fetch);
      if FetchTransaction(id) in steps {
        var k :| 0 <= k < |steps| && steps[k] == FetchTransaction(id);
        assert k == 1;
      }
      if CountTransaction in steps {
        var k :| 0 <= k < |steps| && steps[k] == CountTransaction;
        assert k == 2;
      }
    }

    /**
     * A body with a JSON syntax error, which `json.Unmarshal` rejects before
     * decoding anything, leaves the zero event: handling it fetches nothing,
     * cannot panic, counts no transaction and resolves the ("", "") request
     * series, so `ServeHTTP` answers its 400. (A type error can leave fields,
     * the transaction reference among them, set; such an event is handled
     * like any other.)
     */
    lemma SyntaxErrorBodyHandled(fetch: FetchResult<Transaction>)
      ensures EventSteps(ZeroEvent, fetch) == [ResolveRequestSeries]
      ensures !Panics(ZeroEvent, fetch) && !Counts(ZeroEvent, fetch)
      ensures LabelsOf(ZeroEvent) == WebhookLabels("", "")
    {
    }

    /** `handleTransaction`: fetch the transaction and count it under the label map built from it. */
    method HandleTransaction(id: string, fetch: FetchResult<Transaction>) returns (ret: Return, steps: seq<Step>)
      modifies metrics`transactionCount, metrics`transactionAmount
      ensures !hasClient ==> ret == Panicked && steps == []
      ensures hasClient && fetch.FetchErr? ==> ret == Returned(Some(fetch.err)) && steps == [FetchTransaction(id)]
      ensures hasClient && fetch == Fetched(None) ==> ret == Panicked && steps == [FetchTransaction(id)]
      ensures hasClient && fetch.Fetched? && fetch.json200.Some? ==>
        var t := fetch.json200.value;
        && ret == Returned(None)
        && steps == [FetchTransaction(id), CountTransaction]
        && metrics.transactionCount == Metrics.Add(old(metrics.transactionCount), TransactionLabelsOf(t), 1)
        && metrics.transactionAmount == Metrics.Add(old(metrics.transactionAmount), TransactionLabelsOf(t), t.amount.valueInBaseUnits)
      ensures !(hasClient && fetch.Fetched? && fetch.json200.Some?) ==>
        && metrics.transactionCount == old(metrics.transactionCount)
        && metrics.transactionAmount == old(metrics.transactionAmount)
    {
      if !hasClient {
        return Panicked, [];  // method call on the nil client `h.c`
      }
      steps := [FetchTransaction(id)];
      match fetch {
        case FetchErr(e) =>
          ret := Returned(Some(e));
        case Fetched(None) =>
          ret := Panicked;  // `t.JSON200.Data` on a nil `JSON200`
        case Fetched(Some(t)) =>
          var labels := TransactionLabelsOf(t);
          metrics.transactionCount := Metrics.Add(metrics.transactionCount, labels, 1);
          metrics.transactionAmount := Metrics.Add(metrics.transactionAmount, labels, t.amount.valueInBaseUnits);
          steps := steps + [CountTransaction];
          ret := Returned(None);
      }
    }

    /** `handleWebhookRequest`: resolve the request series, then handle the transaction the event names, if any. */
    method HandleWebhookRequest(event: WebhookEvent, fetch: FetchResult<Transaction>) returns (ret: Return, steps: seq<Step>)
      modifies metrics`webhookRequests, metrics`transactionCount, metrics`transactionAmount
      ensures metrics.webhookRequests == Metrics.Resolve(old(metrics.webhookRequests), LabelsOf(event))
      ensures steps == EventSteps(event, fetch)
      ensures ret.Panicked? <==> Panics(event, fetch)
      ensures ret.Returned? ==> ret.err == (if event.transaction.Some? && fetch.FetchErr? then Some(fetch.err) else None)
      ensures Counts(event, fetch) ==>
        var t := fetch.json200.value;
        && metrics.transactionCount == Metrics.Add(old(metrics.transactionCount), TransactionLabelsOf(t), 1)
        && metrics.transactionAmount == Metrics.Add(old(metrics.transactionAmount), TransactionLabelsOf(t), t.amount.valueInBaseUnits)
      ensures !Counts(event, fetch) ==>
        && metrics.transactionCount == old(metrics.transactionCount)
        && metrics.transactionAmount == old(metrics.transactionAmount)
    {
      metrics.webhookRequests := Metrics.Resolve(metrics.webhookRequests, LabelsOf(event));
      steps := [ResolveRequestSeries];
      if event.transaction.Some? {
        var more;
        ret, more := HandleTransaction(event.transaction.value, fetch);
        steps := steps + more;
      } else {
        ret := Returned(None);
      }
    }

    /**
     * `ServeHTTP`. The signature is checked on the raw body before it is
     * unmarshalled; an unmarshal error answers 400 but the event is handled
     * all the same; the error of `handleWebhookRequest` is dropped.
     */
    method ServeHTTP(body: Result<Bytes, Error>, header: string, decoded: Unmarshalled, fetch: FetchResult<Transaction>)
      returns (reply: Reply, steps: seq<Step>)
      modifies metrics
      ensures metrics.webhookInflights == old(metrics.webhookInflights)
      ensures body.Failure? ==> reply == Replied(400) && steps == [ReadBody]
      ensures body.Success? && Signature(header).None? ==>
        reply == Replied(401) && steps == [ReadBody, DecodeSignature]
      ensures body.Success? && Signature(header).Some? && !Authenticate(body.value, Signature(header).value) ==>
        reply == Replied(401) && steps == [ReadBody, DecodeSignature, ComputeMac]
      ensures !Authentic(body, header) ==>
        && metrics.webhookRequests == old(metrics.webhookRequests)
        && metrics.transactionCount == old(metrics.transactionCount)
        && metrics.transactionAmount == old(metrics.transactionAmount)
      ensures Authentic(body, header) ==>
        && steps == [ReadBody, DecodeSignature, ComputeMac, Unmarshal] + EventSteps(decoded.data, fetch)
        && reply == (if Panics(decoded.data, fetch) then Aborted
                     else Replied(if decoded.err.Some? then 400 else 200))
        && metrics.webhookRequests == Metrics.Resolve(old(metrics.webhookRequests), LabelsOf(decoded.data))
      ensures Authentic(body, header) && Counts(decoded.data, fetch) ==>
        var t := fetch.json200.value;
        && metrics.transactionCount == Metrics.Add(old(metrics.transactionCount), TransactionLabelsOf(t), 1)
        && metrics.transactionAmount == Metrics.Add(old(metrics.transactionAmount), TransactionLabelsOf(t), t.amount.valueInBaseUnits)
      ensures !(Authentic(body, header) && Counts(decoded.data, fetch)) ==>
        && metrics.transactionCount == old(metrics.transactionCount)
        && metrics.transactionAmount == old(metrics.transactionAmount)
    {
      metrics.webhookInflights := metrics.webhookInflights + 1;
      steps := [ReadBody];
      if body.Failure? {
        reply := Replied(400);
      } else {
        steps := steps + [DecodeSignature];
        var signature := Hex.Decode(header);
        if signature.None? || |signature.value| == 0 {
          reply := Replied(401);
        } else {
          steps := steps + [ComputeMac];
          if !Authenticate(body.value, signature.value) {
            reply := Replied(401);
          } else {
            steps := steps + [Unmarshal];
            // `http.Error(w, ..., 400)` without a return; otherwise the implicit 200
            var status := if decoded.err.Some? then 400 else 200;
            var ret, more := HandleWebhookRequest(decoded.data, fetch);
            steps := steps + more;
            reply := if ret.Panicked? then Aborted else Replied(status);
          }
        }
      }
      // the deferred `webhookInflights.Dec()` runs on every path, a panic included
      metrics.webhookInflights := metrics.webhookInflights - 1;
    }
  }
}
