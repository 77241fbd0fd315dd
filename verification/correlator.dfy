/** Reply correlation: the reference-counted `ResponseInner` bound to one request
    id, its typed view `Response<T>`, and the completion marker sent when its last
    holder lets go of it. */
module Correlator {
  import opened Wrappers
  import opened Protocol

  /** `Arc<ResponseInner>`: the request id it answers and how many owners the
      `Arc` currently has. The outbound sender it wraps is passed alongside. */
  datatype ResponseInner = ResponseInner(id: MessageId, holders: nat)

  /** `Response<M>`: the same correlator, typed by the request kind `M` so that
      only `M`'s declared response can be sent through it. */
  datatype Response = Response(inner: ResponseInner, kind: RequestKind)

  /** The envelope dropping the last holder emits. */
  function CompletionMarker(id: MessageId): Envelope
  {
    Envelope(0, None, None, Some(id))
  }

  /** The error envelope `send_error` emits for an error whose text is `message`. */
  function ErrorFrame(id: MessageId, message: string): Envelope
  {
    Envelope(0, None, Some(Error(0, [], message)), Some(id))
  }

  /** `Arc::new(ResponseInner { id, tx })`: a correlator with its single first owner. */
  function Open(id: MessageId): (r: ResponseInner)
    ensures r.id == id && r.holders == 1
  {
    ResponseInner(id, 1)
  }

  /** `Arc::clone`: one more owner of the same correlator. */
  function Share(r: ResponseInner): (r': ResponseInner)
    requires r.holders > 0
    ensures r'.id == r.id && r'.holders == r.holders + 1
  {
    r.(holders := r.holders + 1)
  }

  /** `ResponseInner::send`: puts an already-built envelope on the channel as is. */
  function SendRaw(r: ResponseInner, tx: Channel, e: Envelope): (tx': Channel)
    requires r.holders > 0
    ensures tx'.open == tx.open && tx.sent <= tx'.sent
    ensures Appended(tx, tx') == if tx.open then [e] else []
  {
    Transmit(tx, e)
  }

  /** `Response::send`: one reply frame, id 0, stamped with the request's id. Each
      call appends its own frame; repeated sends are not suppressed. */
  function Send(resp: Response, tx: Channel, p: Payload): (tx': Channel)
    requires resp.inner.holders > 0 && Answers(resp.kind, p)
    ensures tx'.open == tx.open && tx.sent <= tx'.sent
    ensures Appended(tx, tx') ==
      if tx.open then [Envelope(0, None, Some(p), Some(resp.inner.id))] else []
  {
    SendRaw(resp.inner, tx, IntoEnvelope(p, 0, Some(resp.inner.id), None))
  }

  /** `ResponseInner::send_error`: an `Error` payload with code 0, no tags and the
      error's text, stamped with the request's id. */
  function SendError(r: ResponseInner, tx: Channel, message: string): (tx': Channel)
    requires r.holders > 0
    ensures tx'.open == tx.open && tx.sent <= tx'.sent
    ensures Appended(tx, tx') ==
      if tx.open then [Envelope(0, None, Some(Error(0, [], message)), Some(r.id))] else []
  {
    SendRaw(r, tx, IntoEnvelope(Error(0, [], message), 0, Some(r.id), None))
  }

  datatype Released = Released(inner: ResponseInner, tx: Channel)

  /** Dropping one owner. When it was the last one, `Drop for ResponseInner` puts
      the completion marker on the channel; otherwise nothing is sent. */
  function Release(r: ResponseInner, tx: Channel): (d: Released)
    requires r.holders > 0
    ensures d.inner.id == r.id && d.inner.holders == r.holders - 1
    ensures d.tx.open == tx.open && tx.sent <= d.tx.sent
    ensures Appended(tx, d.tx) ==
      if r.holders == 1 && tx.open then [Envelope(0, None, None, Some(r.id))] else []
  {
    var inner := r.(holders := r.holders - 1);
    if inner.holders == 0 then Released(inner, Transmit(tx, CompletionMarker(r.id)))
    else Released(inner, tx)
  }

  /** Every payload of `ps` sent in turn through the same response. */
  function SendAll(resp: Response, tx: Channel, ps: seq<Payload>): Channel
    requires resp.inner.holders > 0
    requires forall i :: 0 <= i < |ps| ==> Answers(resp.kind, ps[i])
    decreases |ps|
  {
    if ps == [] then tx else SendAll(resp, Send(resp, tx, ps[0]), ps[1..])
  }

  /** A repeated `send` is not deduplicated: n sends append n frames, in order,
      each stamped with the request id. */
  lemma {:induction false} SendsAreNotSuppressed(resp: Response, tx: Channel, ps: seq<Payload>)
    requires resp.inner.holders > 0
    requires forall i :: 0 <= i < |ps| ==> Answers(resp.kind, ps[i])
    requires tx.open
    ensures SendAll(resp, tx, ps).open
    ensures tx.sent <= SendAll(resp, tx, ps).sent
    ensures |SendAll(resp, tx, ps).sent| == |tx.sent| + |ps|
    ensures forall i :: 0 <= i < |ps| ==>
      SendAll(resp, tx, ps).sent[|tx.sent| + i] == Envelope(0, None, Some(ps[i]), Some(resp.inner.id))
    decreases |ps|
  {
    if ps != [] {
      var tx1 := Send(resp, tx, ps[0]);
      assert tx1.sent == tx.sent + [Envelope(0, None, Some(ps[0]), Some(resp.inner.id))];
      SendsAreNotSuppressed(resp, tx1, ps[1..]);
      var out := SendAll(resp, tx, ps);
      forall i | 0 <= i < |ps|
        ensures out.sent[|tx.sent| + i] == Envelope(0, None, Some(ps[i]), Some(resp.inner.id))
      {
        if i > 0 {
          assert out.sent[|tx1.sent| + (i - 1)] == Envelope(0, None, Some(ps[1..][i - 1]), Some(resp.inner.id));
        }
      }
    }
  }

  /** `n` owners letting go one after the other. */
  function ReleaseTimes(r: ResponseInner, tx: Channel, n: nat): (d: Released)
    requires n <= r.holders
    decreases n
  {
    if n == 0 then Released(r, tx)
    else var d := Release(r, tx); ReleaseTimes(d.inner, d.tx, n - 1)
  }

  /** However many owners a correlator has, dropping them all sends exactly one
      envelope: the completion marker for its request id, as the last frame. */
  lemma {:induction false} LastOwnerSendsOneMarker(r: ResponseInner, tx: Channel)
    requires r.holders > 0 && tx.open
    ensures ReleaseTimes(r, tx, r.holders).inner.holders == 0
    ensures tx.sent <= ReleaseTimes(r, tx, r.holders).tx.sent
    ensures Appended(tx, ReleaseTimes(r, tx, r.holders).tx) == [CompletionMarker(r.id)]
    decreases r.holders
  {
    var d := Release(r, tx);
    if r.holders > 1 {
      assert d.tx == tx by {
        assert Appended(tx, d.tx) == [];
      }
      LastOwnerSendsOneMarker(d.inner, d.tx);
    }
  }
}
