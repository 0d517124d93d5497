/**
 * The in-memory channel store and its three request handlers. The store is
 * a list that open appends to; transfer and close find the first channel
 * with the requested id by a linear scan and update that channel in place.
 */
module ChannelLedger {
  import opened Balances
  import opened Channels

  class Ledger {
    /** Every channel ever created, oldest first; nothing is ever removed. */
    var channels: seq<Channel>

    /** Each channel holds exactly the value it was opened with. */
    ghost predicate Valid()
      reads this
    {
      AllConserved(channels)
    }

    /** The store starts empty. */
    constructor ()
      ensures Valid() && channels == []
    {
      channels := [];
    }

    /** Linear scan for the first channel with the id (the array's `find`). */
    method Find(id: string) returns (r: Option<nat>)
      ensures r == FindIndex(channels, id)
    {
      var i := 0;
      while i < |channels|
        invariant 0 <= i <= |channels|
        invariant forall j :: 0 <= j < i ==> channels[j].id != id
      {
        if channels[i].id == id {
          return Some(i);
        }
        i := i + 1;
      }
      return None;
    }

    /**
     * Open: build the new channel record and append it, without looking at
     * the channels already stored. Returns the record that was stored.
     */
    method OpenChannel(openFrom: Party, openTo: Party, openedBy: Party, initialAmount: int,
                       isOnChain: Option<bool>) returns (created: Channel)
      requires Valid()
      modifies this
      ensures Valid()
      ensures created.id == ChannelId(openFrom, openTo)
      ensures channels == OpenStep(old(channels), openFrom, openTo, openedBy, initialAmount, isOnChain)
      ensures channels == old(channels) + [created]
    {
      var channelId := openFrom + "-" + openTo;
      var onChain := if isOnChain.Some? then isOnChain.value else true;
      var balances := map[openFrom := initialAmount];
      balances := balances[openTo := 0];
      created := Channel(channelId, openFrom, openTo, Open, openedBy, onChain, initialAmount, balances);
      OpenPreserves(channels, openFrom, openTo, openedBy, initialAmount, isOnChain);
      channels := channels + [created];
    }

    /**
     * Transfer: not found, then not open, then payer not funded, each
     * rejected before anything changes; otherwise debit the payer and
     * credit the payee on the channel found.
     */
    method UpdateBalanceSheet(channelId: string, payFrom: Party, payTo: Party, amount: int)
      returns (outcome: Outcome)
      requires Valid()
      modifies this
      ensures Valid()
      ensures Step(outcome, channels) == TransferStep(old(channels), channelId, payFrom, payTo, amount)
      ensures outcome != Ok ==> channels == old(channels)
    {
      var found := Find(channelId);
      if found.None? {
        return NotFound;
      }
      var i := found.value;
      var c := channels[i];
      if c.status != Open {
        return NotOpen;
      }
      var b := c.balances;
      if payFrom !in b || b[payFrom] == 0 || b[payFrom] < amount {
        return Insufficient;
      }
      b := b[payFrom := b[payFrom] - amount];
      b := b[payTo := (if payTo in b then b[payTo] else 0) + amount];
      TransferPreserves(channels, channelId, payFrom, payTo, amount);
      channels := channels[i := c.(balances := b)];
      outcome := Ok;
    }

    /**
     * Close: refuse a missing or empty id, report an unknown one, and
     * otherwise mark the first channel with the id closed. A channel that
     * was already closed is reported as such and stays closed.
     */
    method CloseChannel(channelId: Option<string>) returns (outcome: Outcome)
      requires Valid()
      modifies this
      ensures Valid()
      ensures Step(outcome, channels) == CloseStep(old(channels), channelId)
      ensures outcome == MissingId || outcome == NotFound ==> channels == old(channels)
    {
      if channelId.None? || channelId.value == "" {
        return MissingId;
      }
      var found := Find(channelId.value);
      if found.None? {
        return NotFound;
      }
      var i := found.value;
      outcome := if channels[i].status == Closed then AlreadyClosed else Ok;
      ClosePreserves(channels, channelId);
      channels := channels[i := channels[i].(status := Closed)];
    }
  }

  /**
   * A caller's view: open Alice-Bob with 100, pay 40, overpay, close, pay
   * after close, and use an unknown id; the contracts above fix every result.
   */
  method Walkthrough()
  {
    var ledger := new Ledger();
    var c := ledger.OpenChannel("Alice", "Bob", "Alice", 100, None);
    assert c.id == "Alice-Bob";
    assert c.balances == map["Alice" := 100, "Bob" := 0];

    var o := ledger.UpdateBalanceSheet("Alice-Bob", "Alice", "Bob", 40);
    assert o == Ok;
    assert ledger.channels[0].balances == map["Alice" := 60, "Bob" := 40];

    o := ledger.UpdateBalanceSheet("Alice-Bob", "Alice", "Bob", 1000);
    assert o == Insufficient;
    assert ledger.channels[0].balances == map["Alice" := 60, "Bob" := 40];

    o := ledger.CloseChannel(Some("Alice-Bob"));
    assert o == Ok;
    assert ledger.channels[0].status == Closed;
    assert ledger.channels[0].balances == map["Alice" := 60, "Bob" := 40];

    o := ledger.UpdateBalanceSheet("Alice-Bob", "Alice", "Bob", 1);
    assert o == NotOpen;

    o := ledger.UpdateBalanceSheet("X-Y", "X", "Y", 1);
    assert o == NotFound;
    o := ledger.CloseChannel(Some("X-Y"));
    assert o == NotFound;
  }
}
