/**
 * Channel records and the three ledger operations as pure transitions on the
 * list of channels: open (append), transfer (guarded debit/credit on the first
 * channel with the id) and close (status flip on the first channel with the id).
 */
module Channels {
  import opened Balances

  datatype Option<T> = None | Some(value: T)

  datatype Status = Open | Closed

  /** One two-party payment channel, as the ledger stores it. */
  datatype Channel = Channel(
    id: string,
    openFrom: Party,
    openTo: Party,
    status: Status,
    openedBy: Party,
    isOnChain: bool,
    initialAmount: int,
    balances: Sheet)

  /** What an operation reports back to its caller. */
  datatype Outcome =
    | Ok
    | MissingId       // close without a (non-empty) channel id
    | NotFound        // no channel has the id
    | NotOpen         // transfer on a channel whose status is not open
    | Insufficient    // payer missing, at zero, or below the amount
    | AlreadyClosed   // close on a channel that was closed before

  /** The outcome of a transfer or a close, with the channel list it leaves. */
  datatype Step = Step(outcome: Outcome, channels: seq<Channel>)

  /** The channel id: the two names joined by a dash, in the order given. */
  function ChannelId(openFrom: Party, openTo: Party): (r: string)
    ensures |r| == |openFrom| + 1 + |openTo|
    ensures r[..|openFrom|] == openFrom && r[|openFrom|] == '-' && r[|openFrom| + 1..] == openTo
  {
    openFrom + "-" + openTo
  }

  /**
   * The balances a new channel starts with: the funder holds the initial
   * amount and the counterparty 0; when both names are the same the later
   * entry (0) is the one kept.
   */
  function OpeningBalances(openFrom: Party, openTo: Party, initialAmount: int): (r: Sheet)
    ensures r.Keys == {openFrom, openTo} && r[openTo] == 0
    ensures openFrom != openTo ==> r[openFrom] == initialAmount
  {
    map[openFrom := initialAmount][openTo := 0]
  }

  /** The record that open creates. A missing on-chain flag means on-chain. */
  function NewChannel(openFrom: Party, openTo: Party, openedBy: Party, initialAmount: int,
                      isOnChain: Option<bool>): (r: Channel)
    ensures r.status == Open && r.id == ChannelId(openFrom, openTo)
    ensures r.openFrom == openFrom && r.openTo == openTo && r.openedBy == openedBy
    ensures r.initialAmount == initialAmount
    ensures r.balances == OpeningBalances(openFrom, openTo, initialAmount)
    ensures r.isOnChain <==> isOnChain != Some(false)
    ensures Conserved(r)
  {
    Channel(ChannelId(openFrom, openTo), openFrom, openTo, Open, openedBy,
            if isOnChain.Some? then isOnChain.value else true,
            initialAmount, OpeningBalances(openFrom, openTo, initialAmount))
  }

  /** Index of the first channel whose id is `id`, if there is one. */
  function FindIndex(cs: seq<Channel>, id: string): (r: Option<nat>)
    ensures r.Some? ==> r.value < |cs| && cs[r.value].id == id
    ensures r.Some? ==> forall j :: 0 <= j < r.value ==> cs[j].id != id
    ensures r.None? ==> forall j :: 0 <= j < |cs| ==> cs[j].id != id
    decreases |cs|
  {
    if cs == [] then None
    else if cs[0].id == id then Some(0)
    else
      match FindIndex(cs[1..], id)
      case None => None
      case Some(k) => Some(k + 1)
  }

  /**
   * Open: one new channel is appended after all existing ones; nothing is
   * replaced, whatever ids the list already holds.
   */
  function OpenStep(cs: seq<Channel>, openFrom: Party, openTo: Party, openedBy: Party,
                    initialAmount: int, isOnChain: Option<bool>): (r: seq<Channel>)
    ensures |r| == |cs| + 1 && r[..|cs|] == cs
    ensures r[|cs|].id == ChannelId(openFrom, openTo) && r[|cs|].status == Open
    ensures r[|cs|].openFrom == openFrom && r[|cs|].openTo == openTo
    ensures r[|cs|].openedBy == openedBy && r[|cs|].initialAmount == initialAmount
    ensures r[|cs|].isOnChain <==> isOnChain != Some(false)
    ensures r[|cs|].balances.Keys == {openFrom, openTo} && r[|cs|].balances[openTo] == 0
    ensures openFrom != openTo ==> r[|cs|].balances[openFrom] == initialAmount
  {
    cs + [NewChannel(openFrom, openTo, openedBy, initialAmount, isOnChain)]
  }

  /**
   * Transfer: look up the first channel with the id, check that it is open
   * and that the payer is funded, then settle on that channel alone.
   */
  function TransferStep(cs: seq<Channel>, id: string, payFrom: Party, payTo: Party,
                        amount: int): (r: Step)
    ensures |r.channels| == |cs|
    ensures r.outcome == Ok || r.outcome == NotFound || r.outcome == NotOpen || r.outcome == Insufficient
    ensures r.outcome == NotFound <==> FindIndex(cs, id).None?
    ensures r.outcome != Ok ==> r.channels == cs
    ensures FindIndex(cs, id).Some? ==>
              var c := cs[FindIndex(cs, id).value];
              && (r.outcome == NotOpen <==> c.status != Open)
              && (r.outcome == Insufficient <==> c.status == Open && !Funded(c.balances, payFrom, amount))
              && (r.outcome == Ok <==> c.status == Open && Funded(c.balances, payFrom, amount))
    ensures r.outcome == Ok ==>
              var i := FindIndex(cs, id).value;
              && (forall j :: 0 <= j < |cs| && j != i ==> r.channels[j] == cs[j])
              && r.channels[i] == cs[i].(balances := Settle(cs[i].balances, payFrom, payTo, amount))
  {
    match FindIndex(cs, id)
    case None => Step(NotFound, cs)
    case Some(i) =>
      var c := cs[i];
      if c.status != Open then Step(NotOpen, cs)
      else if !Funded(c.balances, payFrom, amount) then Step(Insufficient, cs)
      else Step(Ok, cs[i := c.(balances := Settle(c.balances, payFrom, payTo, amount))])
  }

  /**
   * Close: an absent or empty id is refused, an unknown id is not found;
   * otherwise the first channel with the id is marked closed, whether or not
   * it already was.
   */
  function CloseStep(cs: seq<Channel>, id: Option<string>): (r: Step)
    ensures |r.channels| == |cs|
    ensures r.outcome == MissingId <==> id.None? || id.value == ""
    ensures r.outcome == NotFound <==> id.Some? && id.value != "" && FindIndex(cs, id.value).None?
    ensures r.outcome == MissingId || r.outcome == NotFound ==> r.channels == cs
    ensures id.Some? && id.value != "" && FindIndex(cs, id.value).Some? ==>
              r.outcome == Ok || r.outcome == AlreadyClosed
    ensures r.outcome == Ok || r.outcome == AlreadyClosed ==>
              var i := FindIndex(cs, id.value).value;
              && r.channels[i] == cs[i].(status := Closed)
              && (r.outcome == AlreadyClosed <==> cs[i].status == Closed)
              && (forall j :: 0 <= j < |cs| && j != i ==> r.channels[j] == cs[j])
  {
    if id.None? || id.value == "" then Step(MissingId, cs)
    else
      match FindIndex(cs, id.value)
      case None => Step(NotFound, cs)
      case Some(i) =>
        Step(if cs[i].status == Closed then AlreadyClosed else Ok, cs[i := cs[i].(status := Closed)])
  }

  /** The conservation invariant: a channel holds exactly what it opened with. */
  ghost predicate Conserved(c: Channel)
  {
    Total(c.balances) == Total(OpeningBalances(c.openFrom, c.openTo, c.initialAmount))
  }

  ghost predicate AllConserved(cs: seq<Channel>)
  {
    forall j :: 0 <= j < |cs| ==> Conserved(cs[j])
  }

  ghost predicate AllNonNegative(cs: seq<Channel>)
  {
    forall j :: 0 <= j < |cs| ==> NonNegative(cs[j].balances)
  }

  /**
   * A channel between two different parties opens holding the initial
   * amount; a channel of a party with itself opens holding 0.
   */
  lemma OpeningTotal(openFrom: Party, openTo: Party, initialAmount: int)
    ensures Total(OpeningBalances(openFrom, openTo, initialAmount)) ==
            if openFrom != openTo then initialAmount else 0
  {
    var m := OpeningBalances(openFrom, openTo, initialAmount);
    TotalRemove(m, openTo);
    if openFrom != openTo {
      assert m - {openTo} == map[openFrom := initialAmount];
      TotalRemove(map[openFrom := initialAmount], openFrom);
      assert map[openFrom := initialAmount] - {openFrom} == map[];
    } else {
      assert m - {openTo} == map[];
    }
  }

  /** In a conserved channel between two parties the balances sum to the initial amount. */
  lemma ConservedSum(c: Channel)
    requires Conserved(c) && c.openFrom != c.openTo
    ensures Total(c.balances) == c.initialAmount
  {
    OpeningTotal(c.openFrom, c.openTo, c.initialAmount);
  }

  /** In an id built from a dash-free funder, the first dash is the separator. */
  lemma DashAfterFunder(f: Party, t: Party)
    requires '-' !in f
    ensures ChannelId(f, t)[|f|] == '-'
    ensures forall k :: 0 <= k < |f| ==> ChannelId(f, t)[k] != '-'
  {
    assert forall k :: 0 <= k < |f| ==> ChannelId(f, t)[k] == f[k];
  }

  /** Two ids are equal exactly when their funders and counterparties are, for dash-free funders. */
  lemma ChannelIdInjective(f1: Party, t1: Party, f2: Party, t2: Party)
    requires '-' !in f1 && '-' !in f2
    ensures ChannelId(f1, t1) == ChannelId(f2, t2) <==> f1 == f2 && t1 == t2
  {
    if ChannelId(f1, t1) == ChannelId(f2, t2) {
      var s := ChannelId(f1, t1);
      DashAfterFunder(f1, t1);
      DashAfterFunder(f2, t2);
      if |f1| != |f2| {
        assert false;
      }
      assert f1 == s[..|f1|] == f2;
      assert t1 == s[|f1| + 1..] == t2;
    }
  }

  /** Without that restriction ids collide: different pairs can share one id. */
  lemma ChannelIdCollides()
    ensures ChannelId("A-B", "C") == ChannelId("A", "B-C")
  {
  }

  /** Open keeps the conservation invariant and non-negativity (for a non-negative initial amount). */
  lemma OpenPreserves(cs: seq<Channel>, openFrom: Party, openTo: Party, openedBy: Party,
                      initialAmount: int, isOnChain: Option<bool>)
    ensures AllConserved(cs) ==> AllConserved(OpenStep(cs, openFrom, openTo, openedBy, initialAmount, isOnChain))
    ensures AllNonNegative(cs) && initialAmount >= 0 ==>
              AllNonNegative(OpenStep(cs, openFrom, openTo, openedBy, initialAmount, isOnChain))
  {
    var r := OpenStep(cs, openFrom, openTo, openedBy, initialAmount, isOnChain);
    assert forall j :: 0 <= j < |cs| ==> r[j] == cs[j];
  }

  /** Every transfer, accepted or not, leaves every channel's total where it was. */
  lemma TransferConserves(cs: seq<Channel>, id: string, payFrom: Party, payTo: Party, amount: int)
    ensures var r := TransferStep(cs, id, payFrom, payTo, amount);
            forall j :: 0 <= j < |cs| ==> Total(r.channels[j].balances) == Total(cs[j].balances)
  {
    var r := TransferStep(cs, id, payFrom, payTo, amount);
    if r.outcome == Ok {
      var i := FindIndex(cs, id).value;
      SettleConserves(cs[i].balances, payFrom, payTo, amount);
    }
  }

  /** Transfer keeps the conservation invariant, and non-negativity for a non-negative amount. */
  lemma TransferPreserves(cs: seq<Channel>, id: string, payFrom: Party, payTo: Party, amount: int)
    ensures AllConserved(cs) ==> AllConserved(TransferStep(cs, id, payFrom, payTo, amount).channels)
    ensures AllNonNegative(cs) && amount >= 0 ==>
              AllNonNegative(TransferStep(cs, id, payFrom, payTo, amount).channels)
  {
    var r := TransferStep(cs, id, payFrom, payTo, amount);
    TransferConserves(cs, id, payFrom, payTo, amount);
    if r.outcome == Ok {
      var i := FindIndex(cs, id).value;
      if AllNonNegative(cs) && amount >= 0 {
        SettleNonNegative(cs[i].balances, payFrom, payTo, amount);
      }
    }
  }

  /** Close keeps the conservation invariant and non-negativity: balances are untouched. */
  lemma ClosePreserves(cs: seq<Channel>, id: Option<string>)
    ensures AllConserved(cs) ==> AllConserved(CloseStep(cs, id).channels)
    ensures AllNonNegative(cs) ==> AllNonNegative(CloseStep(cs, id).channels)
  {
    var r := CloseStep(cs, id);
    assert forall j :: 0 <= j < |cs| ==>
      && r.channels[j].balances == cs[j].balances
      && r.channels[j].openFrom == cs[j].openFrom
      && r.channels[j].openTo == cs[j].openTo
      && r.channels[j].initialAmount == cs[j].initialAmount;
  }

  /** The lookup depends only on the ids, position by position. */
  lemma FindIndexSameIds(cs: seq<Channel>, ds: seq<Channel>, id: string)
    requires |cs| == |ds| && forall j :: 0 <= j < |cs| ==> cs[j].id == ds[j].id
    ensures FindIndex(cs, id) == FindIndex(ds, id)
  {
  }

  /** An appended channel never shadows an earlier one with the same id. */
  lemma {:induction false} FindIndexAppend(cs: seq<Channel>, c: Channel, id: string)
    ensures FindIndex(cs + [c], id) ==
            if FindIndex(cs, id).Some? then FindIndex(cs, id)
            else if c.id == id then Some(|cs|)
            else None
  {
    if cs != [] && cs[0].id != id {
      assert (cs + [c])[1..] == cs[1..] + [c];
      FindIndexAppend(cs[1..], c, id);
    }
  }

  /**
   * Re-opening an existing id adds a second channel, and a transfer on that
   * id still acts on the earliest channel, exactly as before the re-open.
   */
  lemma ReopenTransfersOnOldest(cs: seq<Channel>, openFrom: Party, openTo: Party, openedBy: Party,
                                initialAmount: int, isOnChain: Option<bool>,
                                payFrom: Party, payTo: Party, amount: int)
    requires FindIndex(cs, ChannelId(openFrom, openTo)).Some?
    ensures var id := ChannelId(openFrom, openTo);
            var c := NewChannel(openFrom, openTo, openedBy, initialAmount, isOnChain);
            var before := TransferStep(cs, id, payFrom, payTo, amount);
            var after := TransferStep(OpenStep(cs, openFrom, openTo, openedBy, initialAmount, isOnChain),
                                      id, payFrom, payTo, amount);
            after == Step(before.outcome, before.channels + [c])
  {
    var id := ChannelId(openFrom, openTo);
    var c := NewChannel(openFrom, openTo, openedBy, initialAmount, isOnChain);
    FindIndexAppend(cs, c, id);
    var i := FindIndex(cs, id).value;
    var before := TransferStep(cs, id, payFrom, payTo, amount);
    if before.outcome == Ok {
      assert (cs + [c])[i := cs[i].(balances := Settle(cs[i].balances, payFrom, payTo, amount))]
          == before.channels + [c];
    }
  }

  /** Likewise a close on a re-opened id closes the earliest channel only. */
  lemma ReopenClosesOldest(cs: seq<Channel>, openFrom: Party, openTo: Party, openedBy: Party,
                           initialAmount: int, isOnChain: Option<bool>)
    requires FindIndex(cs, ChannelId(openFrom, openTo)).Some?
    ensures var id := Some(ChannelId(openFrom, openTo));
            var c := NewChannel(openFrom, openTo, openedBy, initialAmount, isOnChain);
            var before := CloseStep(cs, id);
            var after := CloseStep(OpenStep(cs, openFrom, openTo, openedBy, initialAmount, isOnChain), id);
            after == Step(before.outcome, before.channels + [c])
  {
    var id := ChannelId(openFrom, openTo);
    var c := NewChannel(openFrom, openTo, openedBy, initialAmount, isOnChain);
    FindIndexAppend(cs, c, id);
    var i := FindIndex(cs, id).value;
    assert (cs + [c])[i := cs[i].(status := Closed)] == cs[i := cs[i].(status := Closed)] + [c];
  }

  /**
   * Closing twice leaves the list as closing once did; the second close
   * reports that the channel was already closed.
   */
  lemma CloseIdempotent(cs: seq<Channel>, id: Option<string>)
    ensures var once := CloseStep(cs, id);
            var twice := CloseStep(once.channels, id);
            && twice.channels == once.channels
            && (once.outcome == Ok || once.outcome == AlreadyClosed ==> twice.outcome == AlreadyClosed)
            && (once.outcome == MissingId || once.outcome == NotFound ==> twice.outcome == once.outcome)
  {
    var once := CloseStep(cs, id);
    if id.Some? && id.value != "" {
      FindIndexSameIds(cs, once.channels, id.value);
    }
  }

  /** A closed channel rejects every transfer and is left as it was. */
  lemma ClosedRejectsTransfer(cs: seq<Channel>, id: string, payFrom: Party, payTo: Party, amount: int)
    requires FindIndex(cs, id).Some? && cs[FindIndex(cs, id).value].status == Closed
    ensures TransferStep(cs, id, payFrom, payTo, amount) == Step(NotOpen, cs)
  {
  }

  /**
   * A payer whose balance is exactly 0 is refused like a missing one, even
   * for an amount of 0 or less.
   */
  lemma ZeroBalancePayerRefused(cs: seq<Channel>, id: string, payFrom: Party, payTo: Party, amount: int)
    requires FindIndex(cs, id).Some?
    requires var c := cs[FindIndex(cs, id).value];
             c.status == Open && payFrom in c.balances && c.balances[payFrom] == 0
    ensures TransferStep(cs, id, payFrom, payTo, amount) == Step(Insufficient, cs)
  {
  }

  /**
   * The amount is not checked for sign: a negative amount on a funded payer
   * is accepted and moves value from the payee to the payer, which can leave
   * the payee below zero.
   */
  lemma NegativeAmountAccepted(cs: seq<Channel>, id: string, payFrom: Party, payTo: Party, amount: int)
    requires FindIndex(cs, id).Some?
    requires var c := cs[FindIndex(cs, id).value];
             c.status == Open && payFrom in c.balances && c.balances[payFrom] > 0
    requires amount < 0 && payFrom != payTo
    ensures var i := FindIndex(cs, id).value;
            var r := TransferStep(cs, id, payFrom, payTo, amount);
            && r.outcome == Ok
            && r.channels[i].balances[payFrom] > cs[i].balances[payFrom]
            && r.channels[i].balances[payTo] < BalanceOf(cs[i].balances, payTo)
            && (payTo !in cs[i].balances ==> r.channels[i].balances[payTo] < 0)
  {
  }
}
