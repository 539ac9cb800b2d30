/** The private node-to-node media stream: the client of `crates/ucr-api-grpc/src/sfu_node_media_client.rs`
    against the node of `crates/ucr-api-grpc/src/sfu_node_media_service.rs`. */
module SfuForwarding {
  import opened Base

  /** Wire values of the receipt status. */
  const ACCEPTED := 1
  const BACKPRESSURE := 2
  const REJECTED := 3

  datatype Item<T, V> = Item(sequence: u64, target: T, envelope: V)

  datatype Receipt = Receipt(sequence: u64, status: int)

  /** One poll of the receipt stream: a receipt, or a failed call. The end of the sequence is the end of the
      stream. */
  datatype Message = Got(receipt: Receipt) | Broken

  datatype Fault = NoTargets | SequenceOverflow | EndedEarly | OutOfOrder | BadStatus | ExtraReceipt

  datatype ClientError =
    | Rpc
    | Protocol(fault: Fault)
    | Backpressure(acceptedBeforeFailure: nat)
    | Rejected(acceptedBeforeFailure: nat)

  /** The receipt stream, consumed message by message. */
  class ReceiptStream {
    const messages: seq<Message>
    var position: nat

    ghost predicate Valid()
      reads this
    {
      position <= |messages|
    }

    constructor (messages: seq<Message>)
      ensures Valid() && this.messages == messages && position == 0
    {
      this.messages, position := messages, 0;
    }

    method Next() returns (m: Option<Message>)
      requires Valid()
      modifies this
      ensures Valid()
      ensures m == if old(position) < |messages| then Some(messages[old(position)]) else None
      ensures position == if old(position) < |messages| then old(position) + 1 else old(position)
    {
      if position == |messages| { return None; }
      m, position := Some(messages[position]), position + 1;
    }
  }

  // ---- the client -----------------------------------------------------------------------------------

  predicate Is(m: Message, sequence: nat, status: int) {
    m.Got? && m.receipt.sequence == sequence && m.receipt.status == status
  }

  ghost predicate AcceptedUpTo(ms: seq<Message>, k: nat) {
    k <= |ms| && forall i :: 0 <= i < k ==> Is(ms[i], i + 1, ACCEPTED)
  }

  /** The length of the longest in-order accepted prefix, looking no further than `n` receipts. */
  ghost function AcceptedRun(ms: seq<Message>, n: nat): (k: nat)
    ensures k <= n && AcceptedUpTo(ms, k)
    ensures k < n ==> !AcceptedUpTo(ms, k + 1)
  {
    if n == 0 then 0
    else
      var k := AcceptedRun(ms, n - 1);
      if k == n - 1 && n <= |ms| && Is(ms[n - 1], n, ACCEPTED) then n else k
  }

  /** What the client makes of a whole receipt stream: only the message after that prefix matters. */
  ghost function Verdict(ms: seq<Message>, n: nat): Result<nat, ClientError>
    requires n <= U64_MAX
  {
    var k := AcceptedRun(ms, n);
    if k == |ms| then
      if k == n then Ok(n) else Err(Protocol(EndedEarly))
    else if ms[k].Broken? then Err(Rpc)
    else if k == n then Err(Protocol(ExtraReceipt))
    else if ms[k].receipt.sequence != k + 1 then Err(Protocol(OutOfOrder))
    else if ms[k].receipt.status == BACKPRESSURE then Err(Backpressure(k))
    else if ms[k].receipt.status == REJECTED then Err(Rejected(k))
    else Err(Protocol(BadStatus))
  }

  method NumberItems<T, V>(targets: seq<T>, envelope: V) returns (r: Result<seq<Item<T, V>>, ClientError>)
    ensures r.Ok? ==>
      && |r.value| == |targets| <= U64_MAX
      && forall i :: 0 <= i < |targets| ==> r.value[i] == Item(i + 1, targets[i], envelope)
    ensures |targets| <= U64_MAX ==> r == Ok(Items(targets, envelope))
    ensures |targets| > U64_MAX ==> r == Err(Protocol(SequenceOverflow))
  {
    var items := [];
    for index := 0 to |targets|
      invariant index <= U64_MAX && |items| == index
      invariant forall i :: 0 <= i < index ==> items[i] == Item(i + 1, targets[i], envelope)
    {
      if index + 1 > U64_MAX { return Err(Protocol(SequenceOverflow)); }
      items := items + [Item(index + 1, targets[index], envelope)];
    }
    assert items == Items(targets, envelope);
    return Ok(items);
  }

  /** The batch as it goes on the wire: one item per target, numbered from one. */
  function Items<T, V>(targets: seq<T>, envelope: V): (items: seq<Item<T, V>>)
    requires |targets| <= U64_MAX
    ensures |items| == |targets|
  {
    seq(|targets|, i requires 0 <= i < |targets| => Item(i + 1, targets[i], envelope))
  }

  /** The receipt loop. */
  method ReadReceipts(n: nat, receipts: ReceiptStream) returns (r: Result<nat, ClientError>)
    requires n <= U64_MAX && receipts.Valid() && receipts.position == 0
    modifies receipts
    ensures receipts.Valid() && r == Verdict(receipts.messages, n)
  {
    var accepted := 0;
    ghost var ms := receipts.messages;
    for index := 0 to n
      invariant accepted == index == receipts.position && receipts.Valid()
      invariant AcceptedUpTo(ms, index)
    {
      RunIs(ms, n, index);
      var message := receipts.Next();
      if message.None? { return Err(Protocol(EndedEarly)); }
      if message.value.Broken? { return Err(Rpc); }
      var receipt := message.value.receipt;
      if receipt.sequence != index + 1 { return Err(Protocol(OutOfOrder)); }
      match receipt.status {
        case 1 => accepted := accepted + 1;
        case 2 => return Err(Backpressure(accepted));
        case 3 => return Err(Rejected(accepted));
        case _ => return Err(Protocol(BadStatus));
      }
    }
    RunIs(ms, n, n);
    var message := receipts.Next();
    if message.None? { return Ok(accepted); }
    if message.value.Broken? { return Err(Rpc); }
    return Err(Protocol(ExtraReceipt));
  }

  lemma RunIs(ms: seq<Message>, n: nat, k: nat)
    requires k <= n && AcceptedUpTo(ms, k)
    ensures AcceptedRun(ms, n) >= k
    ensures k < n && !AcceptedUpTo(ms, k + 1) ==> AcceptedRun(ms, n) == k
  {
    var run := AcceptedRun(ms, n);
    if run < k { assert AcceptedUpTo(ms, run + 1); }
  }

  /** One item per target, in the caller's order, numbered from one, all with the caller's envelope. */
  ghost predicate IsBatch<T, V>(items: seq<Item<T, V>>, targets: seq<T>, envelope: V) {
    && |items| == |targets| <= U64_MAX
    && forall i :: 0 <= i < |items| ==> items[i] == Item(i + 1, targets[i], envelope)
  }

  /** `forward_batch`. `serve` is the other end: what comes back for the items sent, or no answer at all. */
  method ForwardBatch<T, V>(targets: seq<T>, envelope: V, serve: seq<Item<T, V>> -> Option<seq<Message>>)
    returns (r: Result<nat, ClientError>)
    ensures |targets| == 0 ==> r == Err(Protocol(NoTargets))
    ensures |targets| > U64_MAX ==> r == Err(Protocol(SequenceOverflow))
    ensures forall items :: IsBatch(items, targets, envelope) && targets != [] ==>
      r == if serve(items).None? then Err(Rpc) else Verdict(serve(items).value, |targets|)
  {
    if |targets| == 0 { return Err(Protocol(NoTargets)); }
    var items :- NumberItems(targets, envelope);
    OneBatch(items, targets, envelope);
    var response := serve(items);
    if response.None? { return Err(Rpc); }
    var receipts := new ReceiptStream(response.value);
    r := ReadReceipts(|targets|, receipts);
  }

  lemma OneBatch<T, V>(items: seq<Item<T, V>>, targets: seq<T>, envelope: V)
    requires IsBatch(items, targets, envelope)
    ensures forall other :: IsBatch(other, targets, envelope) ==> other == items
  {
  }

  /** The full in-order, all-accepted answer to `n` items. */
  ghost function AllAccepted(n: nat): seq<Message>
    requires n <= U64_MAX
  {
    seq(n, i requires 0 <= i < n => Got(Receipt(i + 1, ACCEPTED)))
  }

  ghost predicate Stops(ms: seq<Message>, k: nat, status: int) {
    AcceptedUpTo(ms, k) && k < |ms| && Is(ms[k], k + 1, status)
  }

  /** The exact meaning of every result, for every receipt stream whatsoever. */
  lemma EveryStreamIsClassified(ms: seq<Message>, n: nat, k: nat)
    requires n <= U64_MAX
    ensures Verdict(ms, n) == Ok(k) <==> k == n && ms == AllAccepted(n)
    ensures Verdict(ms, n) == Err(Backpressure(k)) <==> k < n && Stops(ms, k, BACKPRESSURE)
    ensures Verdict(ms, n) == Err(Rejected(k)) <==> k < n && Stops(ms, k, REJECTED)
    ensures Verdict(ms, n) == Err(Protocol(EndedEarly)) <==> |ms| < n && AcceptedUpTo(ms, |ms|)
    ensures Verdict(ms, n) == Err(Protocol(ExtraReceipt)) <==> |ms| > n && AcceptedUpTo(ms, n) && ms[n].Got?
    ensures Verdict(ms, n) == Err(Protocol(OutOfOrder)) <==>
      exists j :: 0 <= j < n && j < |ms| && AcceptedUpTo(ms, j) && ms[j].Got? && ms[j].receipt.sequence != j + 1
    ensures Verdict(ms, n) == Err(Protocol(BadStatus)) <==>
      exists j :: 0 <= j < n && j < |ms| && AcceptedUpTo(ms, j) && ms[j].Got? && ms[j].receipt.sequence == j + 1
                  && ms[j].receipt.status !in {ACCEPTED, BACKPRESSURE, REJECTED}
    ensures Verdict(ms, n) == Err(Rpc) <==> exists j :: 0 <= j <= n && j < |ms| && AcceptedUpTo(ms, j) && ms[j].Broken?
  {
    var run := AcceptedRun(ms, n);
    hide AcceptedRun;
    if AcceptedUpTo(ms, n) {
      RunIs(ms, n, n);
      if |ms| == n { assert ms == AllAccepted(n); }
    }
    if k < n && AcceptedUpTo(ms, k) { RunIs(ms, n, k); }
    if |ms| < n && AcceptedUpTo(ms, |ms|) { RunIs(ms, n, |ms|); }
    forall j | 0 <= j <= n && j < |ms| && AcceptedUpTo(ms, j) && !Is(ms[j], j + 1, ACCEPTED) ensures run == j {
      RunIs(ms, n, j);
    }
  }

  /** `probe`: an empty batch, answered by an empty stream and nothing else. */
  method Probe(receipts: ReceiptStream) returns (r: Result<(), ClientError>)
    requires receipts.Valid() && receipts.position == 0
    modifies receipts
    ensures r.Ok? <==> receipts.messages == []
    ensures r.Err? ==> r.error == if receipts.messages[0].Broken? then Rpc else Protocol(ExtraReceipt)
  {
    var message := receipts.Next();
    if message.None? { return Ok(()); }
    if message.value.Broken? { return Err(Rpc); }
    return Err(Protocol(ExtraReceipt));
  }

  // ---- the node -------------------------------------------------------------------------------------

  /** What becomes of one item: forwarded, refused by the sink, or not answerable at all (undecodable or not
      authorized), which ends the stream. */
  datatype Decision = Forwarded | SinkBusy | SinkRefused | Unanswerable

  function StatusOf(d: Decision): int
    requires !d.Unanswerable?
  {
    match d
    case Forwarded => ACCEPTED
    case SinkBusy => BACKPRESSURE
    case SinkRefused => REJECTED
  }

  /** Whether the node answers item `i`, when it stands where `expected` is due. */
  predicate Answers<T, V>(item: Item<T, V>, expected: nat, decision: Decision) {
    item.sequence == expected && expected < U64_MAX && !decision.Unanswerable?
  }

  /** The node's answer to the items from `i` on. */
  function NodeFrom<T, V>(items: seq<Item<T, V>>, decide: nat -> Decision, i: nat): seq<Message>
    requires i <= |items|
    decreases |items| - i
  {
    if i == |items| then []
    else if !Answers(items[i], i + 1, decide(i)) then [Broken]
    else [Got(Receipt(items[i].sequence, StatusOf(decide(i))))] + NodeFrom(items, decide, i + 1)
  }

  /** The node gets as far as item `i` and answers it. */
  ghost predicate Reaches<T, V>(items: seq<Item<T, V>>, decide: nat -> Decision, i: nat)
    requires i < |items|
  {
    forall j :: 0 <= j <= i ==> Answers(items[j], j + 1, decide(j))
  }

  /** What the sink has taken: by position in the batch, who was sent what. */
  datatype Delivery<T, V> = Delivery(target: T, envelope: V)

  ghost function ForwardedBy<T, V>(items: seq<Item<T, V>>, decide: nat -> Decision): map<nat, Delivery<T, V>> {
    map i | 0 <= i < |items| && Reaches(items, decide, i) && decide(i).Forwarded? :: Delivery(items[i].target, items[i].envelope)
  }

  /** `forward_node_media_stream`: answers in order until the end or the first item it cannot answer. */
  method ServeStream<T, V>(items: seq<Item<T, V>>, decide: nat -> Decision)
    returns (messages: seq<Message>, forwarded: map<nat, Delivery<T, V>>)
    ensures messages == NodeFrom(items, decide, 0)
    ensures forwarded == ForwardedBy(items, decide)
  {
    messages, forwarded := [], map[];
    var expected: u64 := 1;
    var index := 0;
    while index < |items|
      invariant index <= |items| && expected == index + 1
      invariant messages + NodeFrom(items, decide, index) == NodeFrom(items, decide, 0)
      invariant forall i :: 0 <= i < index ==> Answers(items[i], i + 1, decide(i))
      invariant forall i :: i in forwarded <==> 0 <= i < index && decide(i).Forwarded?
      invariant forall i :: i in forwarded ==> forwarded[i] == Delivery(items[i].target, items[i].envelope)
    {
      var item := items[index];
      if item.sequence != expected || expected == U64_MAX || decide(index).Unanswerable? {
        messages := messages + [Broken];
        StopsHere(items, decide, index, forwarded);
        return;
      }
      var receipt := Got(Receipt(item.sequence, StatusOf(decide(index))));
      OneMore(messages, receipt, items, decide, index);
      messages := messages + [receipt];
      if decide(index).Forwarded? { forwarded := forwarded[index := Delivery(item.target, item.envelope)]; }
      expected, index := expected + 1, index + 1;
    }
    StopsHere(items, decide, index, forwarded);
  }

  lemma OneMore<T, V>(messages: seq<Message>, receipt: Message, items: seq<Item<T, V>>, decide: nat -> Decision, i: nat)
    requires i < |items| && Answers(items[i], i + 1, decide(i))
    requires receipt == Got(Receipt(items[i].sequence, StatusOf(decide(i))))
    ensures messages + NodeFrom(items, decide, i) == (messages + [receipt]) + NodeFrom(items, decide, i + 1)
  {
  }

  lemma StopsHere<T, V>(items: seq<Item<T, V>>, decide: nat -> Decision, i: nat,
                        forwarded: map<nat, Delivery<T, V>>)
    requires i <= |items| && (i < |items| ==> !Answers(items[i], i + 1, decide(i)))
    requires forall j :: 0 <= j < i ==> Answers(items[j], j + 1, decide(j))
    requires forall j :: j in forwarded <==> 0 <= j < i && decide(j).Forwarded?
    requires forall j :: j in forwarded ==> forwarded[j] == Delivery(items[j].target, items[j].envelope)
    ensures forwarded == ForwardedBy(items, decide)
  {
    assert forall j :: 0 <= j < |items| ==> (j < i <==> Reaches(items, decide, j));
  }

  lemma {:induction false} NodeMessageAt<T, V>(items: seq<Item<T, V>>, decide: nat -> Decision, i: nat, k: nat)
    requires i <= k < |items| < U64_MAX && !decide(k).Unanswerable?
    requires forall j :: i <= j <= k ==> Answers(items[j], j + 1, decide(j))
    ensures var ms := NodeFrom(items, decide, i);
      |ms| > k - i && ms[k - i] == Got(Receipt(k + 1, StatusOf(decide(k))))
    decreases k - i
  {
    if i < k { NodeMessageAt(items, decide, i + 1, k); }
  }

  /** Every message of the node is one receipt per item, in order, except that the last may be a failure. */
  lemma {:induction false} NodeMessagesAre<T, V>(items: seq<Item<T, V>>, decide: nat -> Decision, i: nat, k: nat)
    requires i <= |items| && k < |NodeFrom(items, decide, i)|
    ensures var m := NodeFrom(items, decide, i)[k];
      && i + k < |items|
      && (m.Got? ==> Answers(items[i + k], i + k + 1, decide(i + k))
                     && m == Got(Receipt(i + k + 1, StatusOf(decide(i + k)))))
    ensures k < |NodeFrom(items, decide, i)| - 1 ==> NodeFrom(items, decide, i)[k].Got?
    decreases k
  {
    if k > 0 { NodeMessagesAre(items, decide, i + 1, k - 1); }
  }

  /** The node answered every item up to one it sent a receipt for. */
  lemma AnsweredIsReached<T, V>(items: seq<Item<T, V>>, decide: nat -> Decision, i: nat)
    requires i < |NodeFrom(items, decide, 0)| && NodeFrom(items, decide, 0)[i].Got?
    ensures i < |items| && Reaches(items, decide, i)
  {
    var ms := NodeFrom(items, decide, 0);
    hide NodeFrom;
    NodeMessagesAre(items, decide, 0, i);
    forall j | 0 <= j <= i ensures Answers(items[j], j + 1, decide(j)) {
      NodeMessagesAre(items, decide, 0, j);
      assert ms[j].Got?;
    }
  }

  /** Every item before position `k` carries its own number, below the largest, and could be answered. */
  ghost predicate Clean<T, V>(items: seq<Item<T, V>>, decide: nat -> Decision, k: nat) {
    k <= |items| && forall j :: 0 <= j < k ==>
      items[j].sequence == j + 1 && j + 1 < 0xffff_ffff_ffff_ffff && decide(j) != Unanswerable
  }

  /** The node's whole answer: position `k` has a receipt exactly when all items up to it are clean, the failure
      that ends the stream stands at the first one that is not, and there is nothing else. */
  lemma {:induction false} NodeAnswerIs<T, V>(items: seq<Item<T, V>>, decide: nat -> Decision, k: nat)
    ensures var ms := NodeFrom(items, decide, 0);
      && (k < |ms| && ms[k].Got? <==> Clean(items, decide, k + 1))
      && (k < |ms| && ms[k].Broken? <==> k < |items| && Clean(items, decide, k) && !Clean(items, decide, k + 1))
      && (k < |ms| && ms[k].Got? ==>
            && ms[k].receipt.sequence == k + 1
            && ms[k].receipt.status == match decide(k) case Forwarded => 1 case SinkBusy => 2 case _ => 3)
  {
    hide NodeFrom;
    var ms := NodeFrom(items, decide, 0);
    if k < |ms| {
      NodeMessagesAre(items, decide, 0, k);
      if ms[k].Got? { AnsweredIsReached(items, decide, k); }
      if ms[k].Broken? {
        if k > 0 { NodeMessagesAre(items, decide, 0, k - 1); AnsweredIsReached(items, decide, k - 1); }
        BrokenIsUnanswered(items, decide, 0, k);
      }
    }
    if k < |items| && Clean(items, decide, k) { CleanIsReached(items, decide, 0, k); }
  }

  lemma {:induction false} BrokenIsUnanswered<T, V>(items: seq<Item<T, V>>, decide: nat -> Decision, i: nat, k: nat)
    requires i <= |items| && k < |NodeFrom(items, decide, i)| && NodeFrom(items, decide, i)[k].Broken?
    ensures i + k < |items| && !Answers(items[i + k], i + k + 1, decide(i + k))
    decreases k
  {
    if k > 0 { BrokenIsUnanswered(items, decide, i + 1, k - 1); }
  }

  lemma {:induction false} CleanIsReached<T, V>(items: seq<Item<T, V>>, decide: nat -> Decision, i: nat, k: nat)
    requires i <= k < |items| && Clean(items, decide, k)
    ensures k - i < |NodeFrom(items, decide, i)|
    ensures NodeFrom(items, decide, i)[k - i].Got? <==> Clean(items, decide, k + 1)
    decreases k - i
  {
    if i < k {
      assert Answers(items[i], i + 1, decide(i));
      CleanIsReached(items, decide, i + 1, k);
    }
  }

  // ---- client, channel and node together ------------------------------------------------------------

  /** A channel that may drop, repeat, reorder or cut off, but makes up nothing of its own. */
  ghost predicate OnlyGenuine(delivered: seq<Message>, sent: seq<Message>) {
    forall m :: m in delivered && m.Got? ==> m in sent
  }

  ghost function NodeAnswer<T, V>(targets: seq<T>, envelope: V, decide: nat -> Decision): seq<Message>
    requires |targets| <= U64_MAX
  {
    NodeFrom(Items(targets, envelope), decide, 0)
  }

  /** A genuine accepted receipt numbered k+1 means target k was forwarded. */
  lemma GenuineReceipt<T, V>(targets: seq<T>, envelope: V, decide: nat -> Decision, r: Receipt)
    requires |targets| <= U64_MAX && Got(r) in NodeAnswer(targets, envelope, decide)
    ensures 1 <= r.sequence <= |targets|
    ensures !decide(r.sequence - 1).Unanswerable? && r.status == StatusOf(decide(r.sequence - 1))
    ensures r.sequence <= |NodeAnswer(targets, envelope, decide)|
    ensures NodeAnswer(targets, envelope, decide)[r.sequence - 1] == Got(r)
  {
    var sent := NodeAnswer(targets, envelope, decide);
    var k :| 0 <= k < |sent| && sent[k] == Got(r);
    NodeMessagesAre(Items(targets, envelope), decide, 0, k);
  }

  /** The sink has taken the caller's envelope for each of the caller's first `count` targets. */
  ghost predicate AllForwarded<T, V>(forwarded: map<nat, Delivery<T, V>>, targets: seq<T>, envelope: V, count: nat) {
    count <= |targets| && forall i :: 0 <= i < count ==> i in forwarded && forwarded[i] == Delivery(targets[i], envelope)
  }

  /** The count carried by a result of the client. */
  function Count(r: Result<nat, ClientError>): Option<nat> {
    match r
    case Ok(n) => Some(n)
    case Err(Backpressure(k)) => Some(k)
    case Err(Rejected(k)) => Some(k)
    case Err(_) => None
  }

  /** Whatever the channel does to the node's receipts, a count that the client reports, in success or in failure,
      counts targets that the node really forwarded: exactly the first so many of them. */
  lemma NeverOverReports<T, V>(targets: seq<T>, envelope: V, decide: nat -> Decision, delivered: seq<Message>)
    requires |targets| <= U64_MAX
    requires OnlyGenuine(delivered, NodeAnswer(targets, envelope, decide))
    ensures var count := Count(Verdict(delivered, |targets|));
      count.Some? ==> AllForwarded(ForwardedBy(Items(targets, envelope), decide), targets, envelope, count.value)
  {
    var items := Items(targets, envelope);
    forall i | 0 <= i < AcceptedRun(delivered, |targets|) ensures i in ForwardedBy(items, decide) {
      AcceptedWasForwarded(targets, envelope, decide, delivered, i);
    }
  }

  lemma AcceptedWasForwarded<T, V>(targets: seq<T>, envelope: V, decide: nat -> Decision, delivered: seq<Message>, i: nat)
    requires |targets| <= U64_MAX
    requires OnlyGenuine(delivered, NodeAnswer(targets, envelope, decide))
    requires i < AcceptedRun(delivered, |targets|)
    ensures decide(i).Forwarded? && i in ForwardedBy(Items(targets, envelope), decide)
    ensures i < |NodeAnswer(targets, envelope, decide)|
    ensures NodeAnswer(targets, envelope, decide)[i] == delivered[i]
  {
    hide AcceptedRun, NodeFrom;
    assert Is(delivered[i], i + 1, ACCEPTED) && delivered[i] in delivered;
    GenuineReceipt(targets, envelope, decide, delivered[i].receipt);
    AnsweredIsReached(Items(targets, envelope), decide, i);
  }

  lemma AnswerIsShort<T, V>(targets: seq<T>, envelope: V, decide: nat -> Decision)
    requires |targets| <= U64_MAX
    ensures |NodeAnswer(targets, envelope, decide)| <= |targets|
  {
    var sent := NodeAnswer(targets, envelope, decide);
    if sent != [] { NodeMessagesAre(Items(targets, envelope), decide, 0, |sent| - 1); }
  }

  /** Success means the node forwarded every target and the channel delivered its answer untouched. */
  lemma SuccessMeansUndisturbed<T, V>(targets: seq<T>, envelope: V, decide: nat -> Decision,
                                      delivered: seq<Message>, count: nat)
    requires 0 < |targets| <= U64_MAX
    requires OnlyGenuine(delivered, NodeAnswer(targets, envelope, decide))
    requires Verdict(delivered, |targets|) == Ok(count)
    ensures count == |targets|
    ensures delivered == NodeAnswer(targets, envelope, decide) == AllAccepted(|targets|)
    ensures forall i :: 0 <= i < |targets| ==> decide(i).Forwarded?
  {
    var sent := NodeAnswer(targets, envelope, decide);
    var n := |targets|;
    EveryStreamIsClassified(delivered, n, count);
    assert AcceptedUpTo(delivered, n);
    RunIs(delivered, n, n);
    AnswerIsShort(targets, envelope, decide);
    hide Verdict, AcceptedRun, NodeAnswer;
    forall i | 0 <= i < n ensures decide(i).Forwarded? && i < |sent| && sent[i] == delivered[i] {
      AcceptedWasForwarded(targets, envelope, decide, delivered, i);
    }
    assert sent[n - 1] == delivered[n - 1];
  }

  /** Receipts appended after the node's answer never produce a success. */
  lemma AppendedReceiptsNeverSucceed<T, V>(targets: seq<T>, envelope: V, decide: nat -> Decision,
                                           extra: seq<Message>, count: nat)
    requires 0 < |targets| < U64_MAX && extra != []
    ensures Verdict(NodeAnswer(targets, envelope, decide) + extra, |targets|) != Ok(count)
  {
    var sent := NodeAnswer(targets, envelope, decide);
    var n := |targets|;
    if Verdict(sent + extra, n) == Ok(count) {
      EveryStreamIsClassified(sent + extra, n, count);
      forall k | 0 <= k < |sent| ensures sent[k].Got? { assert sent[k] == (sent + extra)[k]; }
      AnswerWithoutFailureIsComplete(Items(targets, envelope), decide, 0);
    }
  }

  lemma {:induction false} AnswerWithoutFailureIsComplete<T, V>(items: seq<Item<T, V>>, decide: nat -> Decision, i: nat)
    requires i <= |items| < U64_MAX
    requires forall k :: 0 <= k < |NodeFrom(items, decide, i)| ==> NodeFrom(items, decide, i)[k].Got?
    ensures |NodeFrom(items, decide, i)| == |items| - i
    decreases |items| - i
  {
    var ms := NodeFrom(items, decide, i);
    if i < |items| {
      assert ms[0].Got?;
      var rest := NodeFrom(items, decide, i + 1);
      forall k | 0 <= k < |rest| ensures rest[k].Got? { assert rest[k] == ms[k + 1]; }
      AnswerWithoutFailureIsComplete(items, decide, i + 1);
    }
  }

  /** On an undisturbed channel the client's result names exactly the first target that was not forwarded. */
  lemma UndisturbedResult<T, V>(targets: seq<T>, envelope: V, decide: nat -> Decision, k: nat)
    requires 0 < |targets| < U64_MAX && k <= |targets|
    requires forall i :: 0 <= i < k ==> decide(i).Forwarded?
    requires k < |targets| ==> !decide(k).Forwarded?
    ensures Verdict(NodeAnswer(targets, envelope, decide), |targets|) ==
      if k == |targets| then Ok(k)
      else match decide(k) case SinkBusy => Err(Backpressure(k)) case SinkRefused => Err(Rejected(k)) case _ => Err(Rpc)
  {
    hide AcceptedRun, NodeFrom, NodeAnswer, AcceptedUpTo;
    var ms := NodeAnswer(targets, envelope, decide);
    ForwardedPrefix(targets, envelope, decide, k);
    AnswerIsShort(targets, envelope, decide);
    if k < |targets| {
      AnswerAtFirstFailure(targets, envelope, decide, k);
      NotAcceptedPast(ms, k);
    }
    RunIs(ms, |targets|, k);
  }

  lemma NotAcceptedPast(ms: seq<Message>, k: nat)
    requires k < |ms| && !Is(ms[k], k + 1, ACCEPTED)
    ensures !AcceptedUpTo(ms, k + 1)
  {
  }

  /** The node's answer to a batch starts with the accepted receipts of the targets forwarded first. */
  lemma ForwardedPrefix<T, V>(targets: seq<T>, envelope: V, decide: nat -> Decision, k: nat)
    requires k <= |targets| < U64_MAX && forall i :: 0 <= i < k ==> decide(i).Forwarded?
    ensures k <= |NodeAnswer(targets, envelope, decide)| && AcceptedUpTo(NodeAnswer(targets, envelope, decide), k)
  {
    hide NodeFrom;
    var items, ms := Items(targets, envelope), NodeAnswer(targets, envelope, decide);
    forall i | 0 <= i < k ensures i < |ms| && Is(ms[i], i + 1, ACCEPTED) { NodeMessageAt(items, decide, 0, i); }
    if k > 0 { NodeMessageAt(items, decide, 0, k - 1); }
  }

  lemma AnswerAtFirstFailure<T, V>(targets: seq<T>, envelope: V, decide: nat -> Decision, k: nat)
    requires k < |targets| < U64_MAX && !decide(k).Forwarded?
    requires forall i :: 0 <= i < k ==> decide(i).Forwarded?
    ensures var ms := NodeAnswer(targets, envelope, decide);
      && |ms| > k
      && ms[k] == if decide(k).Unanswerable? then Broken else Got(Receipt(k + 1, StatusOf(decide(k))))
  {
    hide NodeFrom;
    FirstFailure(Items(targets, envelope), decide, 0, k);
  }

  lemma {:induction false} FirstFailure<T, V>(items: seq<Item<T, V>>, decide: nat -> Decision, i: nat, k: nat)
    requires i <= k < |items| < U64_MAX && !decide(k).Forwarded?
    requires forall j :: 0 <= j < |items| ==> items[j].sequence == j + 1
    requires forall j :: i <= j < k ==> decide(j).Forwarded?
    ensures var ms := NodeFrom(items, decide, i);
      && |ms| > k - i
      && ms[k - i] == if decide(k).Unanswerable? then Broken else Got(Receipt(k + 1, StatusOf(decide(k))))
    decreases k - i
  {
    if i < k { FirstFailure(items, decide, i + 1, k); }
  }

  ghost function Below(k: nat): (r: set<nat>)
    ensures |r| == k && forall i :: i in r <==> 0 <= i < k
  {
    if k == 0 then {} else Below(k - 1) + {k - 1}
  }

  /** Nothing is forwarded after `k` unless the node has given up before it. */
  ghost predicate QuietAfter(decide: nat -> Decision, n: nat, k: nat) {
    forall i :: k < i < n && decide(i).Forwarded? ==> exists j :: k <= j < i && decide(j).Unanswerable?
  }

  /** Item `i` is forwarded after `k`, and nothing from `k` on made the node give up before it. */
  ghost predicate Late(decide: nat -> Decision, n: nat, k: nat, i: nat) {
    k < i < n && decide(i).Forwarded? && forall j :: k <= j < i ==> !decide(j).Unanswerable?
  }

  lemma LateIsForwarded<T, V>(targets: seq<T>, envelope: V, decide: nat -> Decision, k: nat, i: nat)
    requires k < |targets| < U64_MAX && !decide(k).Forwarded?
    requires forall j :: 0 <= j < k ==> decide(j).Forwarded?
    ensures i in ForwardedBy(Items(targets, envelope), decide) <==> i < k || Late(decide, |targets|, k, i)
  {
    var items := Items(targets, envelope);
    if i < |items| {
      assert forall j :: 0 <= j <= i ==> (Answers(items[j], j + 1, decide(j)) <==> !decide(j).Unanswerable?);
    }
  }

  lemma QuietMeansNoneLate(decide: nat -> Decision, n: nat, k: nat)
    ensures QuietAfter(decide, n, k) <==> forall i: nat :: !Late(decide, n, k, i)
  {
    if !QuietAfter(decide, n, k) {
      var i :| k < i < n && decide(i).Forwarded? && !(exists j :: k <= j < i && decide(j).Unanswerable?);
      assert Late(decide, n, k, i);
    }
  }

  lemma ForwardedTotal<T, V>(targets: seq<T>, envelope: V, decide: nat -> Decision, k: nat)
    requires k < |targets| < U64_MAX && !decide(k).Forwarded?
    requires forall i :: 0 <= i < k ==> decide(i).Forwarded?
    ensures var all := ForwardedBy(Items(targets, envelope), decide);
      k <= |all| && (|all| == k <==> QuietAfter(decide, |targets|, k))
  {
    hide Late, ForwardedBy, QuietAfter, Below;
    var all := ForwardedBy(Items(targets, envelope), decide);
    forall i: nat ensures i in all <==> i < k || Late(decide, |targets|, k, i) {
      LateIsForwarded(targets, envelope, decide, k, i);
    }
    QuietMeansNoneLate(decide, |targets|, k);
    var late := all.Keys - Below(k);
    assert all.Keys == Below(k) + late;
    assert |all| == |all.Keys| == k + |late|;
    if late != {} {
      var i :| i in late;
      assert Late(decide, |targets|, k, i);
    } else {
      forall i: nat ensures !Late(decide, |targets|, k, i) {
        assert i in all ==> i in Below(k);
        LateIsAbove(decide, |targets|, k, i);
      }
    }
  }

  lemma LateIsAbove(decide: nat -> Decision, n: nat, k: nat, i: nat)
    ensures Late(decide, n, k, i) ==> k < i
  {
  }

  /** On an undisturbed channel, whenever the client does not report success: the targets it reports accepted are
      the node's whole total exactly when nothing is forwarded after the first target that was not, or the node had
      given up by then. The node goes on after a full or refusing sink, so the report can fall short. */
  lemma ReportIsTotalExactlyWhen<T, V>(targets: seq<T>, envelope: V, decide: nat -> Decision) returns (k: nat)
    requires 0 < |targets| < U64_MAX && Verdict(NodeAnswer(targets, envelope, decide), |targets|).Err?
    ensures k < |targets|
    ensures Verdict(NodeAnswer(targets, envelope, decide), |targets|) in {Err(Backpressure(k)), Err(Rejected(k)), Err(Rpc)}
    ensures !decide(k).Forwarded? && forall i :: 0 <= i < k ==> decide(i).Forwarded?
    ensures var all := ForwardedBy(Items(targets, envelope), decide);
      k <= |all| && (|all| == k <==> QuietAfter(decide, |targets|, k))
  {
    hide Verdict, NodeAnswer, ForwardedBy, QuietAfter;
    k := FirstNotForwarded(decide, |targets|);
    UndisturbedResult(targets, envelope, decide, k);
    ForwardedTotal(targets, envelope, decide, k);
  }

  lemma {:induction false} FirstNotForwarded(decide: nat -> Decision, n: nat) returns (k: nat)
    ensures k <= n && (forall i :: 0 <= i < k ==> decide(i).Forwarded?) && (k < n ==> !decide(k).Forwarded?)
  {
    k := 0;
    while k < n && decide(k).Forwarded?
      invariant k <= n && forall i :: 0 <= i < k ==> decide(i).Forwarded?
    {
      k := k + 1;
    }
  }

  /** Two targets, the first one's sink full: the client reports nothing accepted, the node forwarded one. */
  lemma ReportCanFallShort<T, V>(first: T, second: T, envelope: V)
    ensures var decide: nat -> Decision := i => if i == 1 then Forwarded else SinkBusy;
      && Verdict(NodeAnswer([first, second], envelope, decide), 2) == Err(Backpressure(0))
      && Reaches(Items([first, second], envelope), decide, 1) && decide(1).Forwarded?
  {
    var decide: nat -> Decision := i => if i == 1 then Forwarded else SinkBusy;
    UndisturbedResult([first, second], envelope, decide, 0);
  }
}
