/**
 * Sequences of requests against the ledger, one handler run to completion
 * after another, and the invariants that hold along every such sequence.
 */
module Traces {
  import opened Balances
  import opened Channels

  /** One request as the three handlers receive it. */
  datatype Request =
    | OpenRequest(openFrom: Party, openTo: Party, openedBy: Party, initialAmount: int,
                  isOnChain: Option<bool>)
    | PayRequest(channelId: string, payFrom: Party, payTo: Party, amount: int)
    | CloseRequest(closeId: Option<string>)

  /** The channel list after handling one request. */
  function Apply(cs: seq<Channel>, rq: Request): seq<Channel>
  {
    match rq
    case OpenRequest(f, t, funder, a, onChain) => OpenStep(cs, f, t, funder, a, onChain)
    case PayRequest(id, p, q, a) => TransferStep(cs, id, p, q, a).channels
    case CloseRequest(id) => CloseStep(cs, id).channels
  }

  /** The channel list after handling the requests in order. */
  function Run(cs: seq<Channel>, rqs: seq<Request>): seq<Channel>
    decreases |rqs|
  {
    if rqs == [] then cs else Run(Apply(cs, rqs[0]), rqs[1..])
  }

  /** Opens commit a non-negative amount and payments move a non-negative amount. */
  predicate NonNegativeRequest(rq: Request)
  {
    match rq
    case OpenRequest(_, _, _, a, _) => a >= 0
    case PayRequest(_, _, _, a) => a >= 0
    case CloseRequest(_) => true
  }

  /**
   * `later` is what `earlier` can become: same id, parties, funder, mode and
   * initial amount, and a closed channel stays exactly as it was, balances
   * included.
   */
  predicate Succeeds(earlier: Channel, later: Channel)
  {
    && later.id == earlier.id
    && later.openFrom == earlier.openFrom
    && later.openTo == earlier.openTo
    && later.openedBy == earlier.openedBy
    && later.isOnChain == earlier.isOnChain
    && later.initialAmount == earlier.initialAmount
    && (earlier.status == Closed ==> later == earlier)
  }

  /** One request never removes a channel, never re-labels one, and never touches a closed one. */
  lemma ApplySucceeds(cs: seq<Channel>, rq: Request)
    ensures |Apply(cs, rq)| >= |cs|
    ensures forall j :: 0 <= j < |cs| ==> Succeeds(cs[j], Apply(cs, rq)[j])
  {
    var r := Apply(cs, rq);
    match rq
    case OpenRequest(f, t, funder, a, onChain) =>
      assert forall j :: 0 <= j < |cs| ==> r[j] == cs[j];
    case PayRequest(id, p, q, a) =>
    case CloseRequest(id) =>
  }

  /**
   * Along any sequence of requests every channel keeps its identity and
   * position, its status only moves from open to closed, and once closed
   * its balances are frozen.
   */
  lemma {:induction false} RunSucceeds(cs: seq<Channel>, rqs: seq<Request>, i: nat)
    requires i < |cs|
    ensures i < |Run(cs, rqs)| && Succeeds(cs[i], Run(cs, rqs)[i])
    decreases |rqs|
  {
    if rqs != [] {
      var next := Apply(cs, rqs[0]);
      ApplySucceeds(cs, rqs[0]);
      RunSucceeds(next, rqs[1..], i);
    }
  }

  /** Conservation holds after any sequence of requests. */
  lemma {:induction false} RunConserves(cs: seq<Channel>, rqs: seq<Request>)
    requires AllConserved(cs)
    ensures AllConserved(Run(cs, rqs))
    decreases |rqs|
  {
    if rqs != [] {
      match rqs[0] {
        case OpenRequest(f, t, funder, a, onChain) => OpenPreserves(cs, f, t, funder, a, onChain);
        case PayRequest(id, p, q, a) => TransferPreserves(cs, id, p, q, a);
        case CloseRequest(id) => ClosePreserves(cs, id);
      }
      RunConserves(Apply(cs, rqs[0]), rqs[1..]);
    }
  }

  /** With non-negative amounts throughout, no balance ever goes negative. */
  lemma {:induction false} RunNonNegative(cs: seq<Channel>, rqs: seq<Request>)
    requires AllNonNegative(cs)
    requires forall k :: 0 <= k < |rqs| ==> NonNegativeRequest(rqs[k])
    ensures AllNonNegative(Run(cs, rqs))
    decreases |rqs|
  {
    if rqs != [] {
      match rqs[0] {
        case OpenRequest(f, t, funder, a, onChain) => OpenPreserves(cs, f, t, funder, a, onChain);
        case PayRequest(id, p, q, a) => TransferPreserves(cs, id, p, q, a);
        case CloseRequest(id) => ClosePreserves(cs, id);
      }
      assert forall k :: 0 <= k < |rqs[1..]| ==> rqs[1..][k] == rqs[k + 1];
      RunNonNegative(Apply(cs, rqs[0]), rqs[1..]);
    }
  }

  /**
   * Starting from the empty store, every channel between two different
   * parties holds exactly its initial amount, whatever requests came since.
   */
  lemma FromEmptyStore(rqs: seq<Request>, j: nat)
    requires j < |Run([], rqs)|
    requires Run([], rqs)[j].openFrom != Run([], rqs)[j].openTo
    ensures Total(Run([], rqs)[j].balances) == Run([], rqs)[j].initialAmount
  {
    RunConserves([], rqs);
    ConservedSum(Run([], rqs)[j]);
  }

  /**
   * Open Alice-Bob with 100, pay 40, overpay, use an unknown id, close, and
   * pay after the close, stated over the request sequence.
   */
  lemma AliceBobScenario()
    ensures var afterOpen := Run([], [OpenRequest("Alice", "Bob", "Alice", 100, None)]);
            && afterOpen[0].id == "Alice-Bob"
            && afterOpen[0].balances == map["Alice" := 100, "Bob" := 0]
    ensures var paid := Run([], [OpenRequest("Alice", "Bob", "Alice", 100, None),
                                 PayRequest("Alice-Bob", "Alice", "Bob", 40)]);
            && paid[0].balances == map["Alice" := 60, "Bob" := 40]
            && TransferStep(paid, "Alice-Bob", "Alice", "Bob", 1000) == Step(Insufficient, paid)
            && TransferStep(paid, "X-Y", "X", "Y", 1) == Step(NotFound, paid)
            && CloseStep(paid, Some("X-Y")) == Step(NotFound, paid)
            && CloseStep(paid, Some("Alice-Bob")).outcome == Ok
            && CloseStep(paid, Some("Alice-Bob")).channels[0].balances == paid[0].balances
            && TransferStep(CloseStep(paid, Some("Alice-Bob")).channels, "Alice-Bob", "Alice", "Bob", 1).outcome
               == NotOpen
  {
    var open := OpenRequest("Alice", "Bob", "Alice", 100, None);
    var pay := PayRequest("Alice-Bob", "Alice", "Bob", 40);
    var afterOpen := Apply([], open);
    assert Run([], [open]) == Run(afterOpen, []) == afterOpen;
    assert afterOpen[0].id == "Alice-Bob";
    assert FindIndex(afterOpen, "Alice-Bob") == Some(0);
    var paid := Apply(afterOpen, pay);
    assert [open, pay][1..] == [pay] && [pay][1..] == [];
    assert Run([], [open, pay]) == Run(afterOpen, [pay]) == Run(paid, []) == paid;
    assert paid[0].balances == map["Alice" := 60, "Bob" := 40];
  }
}
