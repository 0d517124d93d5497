# Payment-channel ledger

A model of the channel ledger of a Lightning-style payment-channel simulator.
The ledger keeps, in memory, a list of two-party channels. Each channel has an
id, the two parties, a status (open or closed), the funder, an on-chain flag,
the initial amount and a balance sheet mapping participant names to amounts.
Three request handlers act on the list:

- **open** builds a channel with id `openFrom-openTo`, status open and balances
  `{openFrom: initialAmount, openTo: 0}`, and appends it to the list;
- **transfer** (`updateBalanceSheet`) finds the first channel with the id,
  refuses it if it is not open, refuses the payer if it has no entry, a zero
  balance or less than the amount, and otherwise debits the payer and credits
  the payee (creating the payee's entry when missing);
- **close** refuses a missing or empty id, reports an unknown one, and otherwise
  sets the first matching channel's status to closed.

Files:

- `Balances.dfy` (module `Balances`): the balance sheet as `map<string, int>`,
  its sum `Total`, the payer guard `Funded` and the debit/credit `Settle`, with
  the proofs that a settlement conserves the sum and keeps balances
  non-negative.
- `Channels.dfy` (module `Channels`): the `Channel` record, the outcomes, the
  first-match lookup `FindIndex`, and the three operations as pure transitions
  on the channel list (`OpenStep`, `TransferStep`, `CloseStep`), with the
  properties of each: rejection leaves everything unchanged, only the found
  channel changes, conservation, re-opened ids still resolve to the oldest
  channel, close is idempotent.
- `Ledger.dfy` (module `ChannelLedger`): class `Ledger` with the mutable
  `channels` field, the linear-scan `Find`, and the three handlers as methods
  that update the field in place. Each method's postcondition ties the new
  list and the outcome to the transition in `Channels`, and each keeps the
  class invariant that every channel holds exactly what it was opened with.
  `Walkthrough` is a client that drives the class through a short session
  (open Alice-Bob with 100, pay 40, overpay, close, pay after close, unknown
  id) using only the method contracts; `Traces.AliceBobScenario` states the
  same session over the pure request sequence. The two are kept on purpose:
  the first shows the class contracts are strong enough for a caller, the
  second that the transition functions give the same results.
- `Traces.dfy` (module `Traces`): sequences of requests applied one after the
  other, and the invariants along them: conservation, non-negativity under
  non-negative amounts, and channels never removed or relabelled, with a
  closed channel never reopened or changed again.

Behaviour worth knowing:

- Open never replaces a channel with the same id: it appends, and lookups use
  the first match, so after a re-open transfer and close still act on the
  oldest channel (`ReopenTransfersOnOldest`, `ReopenClosesOldest`).
- A channel opened from a party to itself keeps only the later object key, so
  its single balance is 0 and the initial amount is not held (`OpeningTotal`).
  The conservation invariant is therefore stated against the opening balances,
  which sum to the initial amount only for two distinct parties.
- The payer check uses falsiness: a payer at exactly 0 is refused even for
  amount 0 (`ZeroBalancePayerRefused`).
- The amount is not checked for positivity: a negative amount is accepted and
  moves value towards the payer (`NegativeAmountAccepted`).
- Close on an already-closed channel reports that condition and leaves the
  channel closed (outcome `AlreadyClosed`); its state effect is the same as
  any close.
- Open does no input validation: empty names, equal parties and negative
  amounts are all accepted, as the code does.

## Model

| member | source | states |
|---|---|---|
| `Balances.Funded` | backend/src/routes/simulate.ts:72 | the payer passes exactly when its balance, with a missing entry read as 0, is non-zero and at least the amount; a passing payer has an entry |
| `Balances.Settle` | backend/src/routes/simulate.ts:78-79 | the payer loses `amount`, the payee (absent counts as 0) gains it, the payee entry is created, every other entry is unchanged, and a self-payment leaves the sheet as it was |
| `Balances.TotalRemove` | backend/src/routes/simulate.ts:11-13 | the sum of a balance sheet splits into any one participant's balance plus the rest |
| `Balances.TotalUpdate` | backend/src/routes/simulate.ts:78-79 | setting one balance changes the sum by exactly the difference |
| `Balances.SettleConserves` | backend/src/routes/simulate.ts:78-79 | a settled transfer keeps the sum of the balances |
| `Balances.SettleNonNegative` | backend/src/routes/simulate.ts:72-79 | a guarded transfer of a non-negative amount keeps every balance non-negative |
| `Channels.ChannelId` | backend/src/routes/simulate.ts:29 | the id is the funder's name, one dash, then the counterparty's name |
| `Channels.OpeningBalances` | backend/src/routes/simulate.ts:39-42 | the opening sheet has exactly the two names as keys, the counterparty at 0, and the funder at the initial amount when the names differ (the later key wins when they are equal) |
| `Channels.NewChannel` | backend/src/routes/simulate.ts:31-43 | the new record is open, carries id `openFrom-openTo`, the given funder, counterparty, opener and initial amount, the opening balances `{openFrom: initialAmount, openTo: 0}` (later key wins), is on-chain unless false was given, and is conserved |
| `Channels.FindIndex` | backend/src/routes/simulate.ts:60 | returns the first index whose channel has the id, or none when no channel has it |
| `Channels.OpenStep` | backend/src/routes/simulate.ts:29-45 | exactly one channel is appended after the unchanged old list, with id `openFrom-openTo`, status open, the given parties, funder and amount, the on-chain flag true unless false was given, keys `{openFrom, openTo}`, counterparty at 0 and funder at the amount when the parties differ |
| `Channels.TransferStep` | backend/src/routes/simulate.ts:57-86 | not found iff no channel has the id; else not open iff the first match is not open; else insufficient iff the payer is not funded; any refusal leaves the list unchanged; success changes only the first match, and only its balances, by `Settle` |
| `Channels.CloseStep` | backend/src/routes/simulate.ts:91-122 | missing-id iff the id is absent or empty; not found iff no channel has it; both leave the list unchanged; a present non-empty id with a match gives ok or already-closed, and then only the first match changes, its status becomes closed and nothing else, and the outcome says whether it was closed already |
| `Channels.OpeningTotal` | backend/src/routes/simulate.ts:39-42 | a new channel's balances sum to the initial amount for two distinct parties and to 0 for a self-channel |
| `Channels.ConservedSum` | backend/src/routes/simulate.ts:39-42 | a conserved channel between distinct parties holds exactly its initial amount |
| `Channels.DashAfterFunder` | backend/src/routes/simulate.ts:29 | in an id built from a dash-free funder the first dash sits right after the funder |
| `Channels.ChannelIdInjective` | backend/src/routes/simulate.ts:29 | for dash-free funders, equal ids mean equal funders and counterparties, and conversely |
| `Channels.ChannelIdCollides` | backend/src/routes/simulate.ts:29 | different pairs whose names contain dashes can yield the same id |
| `Channels.OpenPreserves` | backend/src/routes/simulate.ts:31-45 | open keeps every channel conserved, and non-negative when the initial amount is non-negative |
| `Channels.TransferConserves` | backend/src/routes/simulate.ts:72-79 | after any transfer, accepted or refused, every channel's balance sum is what it was |
| `Channels.TransferPreserves` | backend/src/routes/simulate.ts:72-79 | transfer keeps every channel conserved, and non-negative when the amount is non-negative |
| `Channels.ClosePreserves` | backend/src/routes/simulate.ts:106-110 | close keeps every channel conserved and non-negative (balances are untouched) |
| `Channels.FindIndexSameIds` | backend/src/routes/simulate.ts:60 | the lookup depends only on the ids, position by position |
| `Channels.FindIndexAppend` | backend/src/routes/simulate.ts:45 | after an append the first match is unchanged if one existed; otherwise it is the new channel when its id matches |
| `Channels.ReopenTransfersOnOldest` | backend/src/routes/simulate.ts:45-79 | re-opening an existing id and then transferring gives the same outcome and the same changes as transferring before the re-open, with the new channel untouched at the end |
| `Channels.ReopenClosesOldest` | backend/src/routes/simulate.ts:45-110 | re-opening an existing id and then closing closes the oldest channel exactly as before the re-open, the new channel staying open at the end |
| `Channels.CloseIdempotent` | backend/src/routes/simulate.ts:106-110 | closing twice leaves the list as closing once; the second close of a found channel reports already-closed; refusals repeat |
| `Channels.ClosedRejectsTransfer` | backend/src/routes/simulate.ts:67-70 | a transfer whose first match is closed is refused as not open and changes nothing |
| `Channels.ZeroBalancePayerRefused` | backend/src/routes/simulate.ts:72-75 | a payer whose balance is exactly 0 is refused as insufficient for any amount, with nothing changed |
| `Channels.NegativeAmountAccepted` | backend/src/routes/simulate.ts:72-79 | a negative amount on a funded payer succeeds, raises the payer and lowers the payee, and drives a new payee below 0 |
| `ChannelLedger.Ledger.constructor` | backend/src/routes/simulate.ts:22 | the store starts empty and satisfies the conservation invariant |
| `ChannelLedger.Ledger.Find` | backend/src/routes/simulate.ts:60 | the linear scan returns exactly the first-match index `FindIndex` |
| `ChannelLedger.Ledger.OpenChannel` | backend/src/routes/simulate.ts:26-55 | the stored list becomes `OpenStep` of the old list, the created record is appended last and carries id `openFrom-openTo`; conservation is kept |
| `ChannelLedger.Ledger.UpdateBalanceSheet` | backend/src/routes/simulate.ts:57-86 | outcome and new list are those of `TransferStep` on the old list; a refusal changes nothing; conservation is kept |
| `ChannelLedger.Ledger.CloseChannel` | backend/src/routes/simulate.ts:91-122 | outcome and new list are those of `CloseStep` on the old list; a missing or unknown id changes nothing; conservation is kept |
| `Traces.ApplySucceeds` | backend/src/routes/simulate.ts:45-110 | one request never removes a channel, never changes its id, parties, funder, flag or initial amount, and leaves a closed channel exactly as it was |
| `Traces.RunSucceeds` | backend/src/routes/simulate.ts:35-110 | along any request sequence every channel stays at its position with the same identity, and a closed channel stays closed with its balances frozen |
| `Traces.RunConserves` | backend/src/routes/simulate.ts:39-79 | along any request sequence every channel stays conserved |
| `Traces.RunNonNegative` | backend/src/routes/simulate.ts:72-79 | along any request sequence with non-negative amounts, no balance becomes negative |
| `Traces.FromEmptyStore` | backend/src/routes/simulate.ts:22-79 | from the empty store, every channel between distinct parties sums to its initial amount after any request sequence |
| `Traces.AliceBobScenario` | backend/src/routes/simulate.ts:29-110 | open Alice-Bob with 100 gives `{Alice:100, Bob:0}`; paying 40 gives `{Alice:60, Bob:40}`; overpaying is insufficient; an unknown id is not found for transfer and close; close succeeds with balances unchanged; a later transfer is refused as not open |

## Left out

- HTTP handling: request parsing, status codes and JSON response bodies are not modelled; each handler returns an `Outcome` (open returns the stored record). The server bootstrap and route wiring are not part of this model, nor is the browser front end.
- The already-closed branch of close sends a second response after the first (a fault of the web framework); only its state effect is modelled.
- JavaScript numbers are modelled as unbounded integers, so conservation is exact; floating-point rounding, `NaN` and non-numeric inputs are not modelled beyond the zero-balance refusal.
- Inputs are modelled as strings and integers: a missing transfer id behaves as an id no channel has, and a missing close id is `None`; an absent `isOnChain` is `None`. Property names inherited from the object prototype (such as `toString`) are not modelled.
- Channel objects are mutated in place in the source; the model replaces the record at its index in the list, which is the same because no other reference to a channel outlives a handler.
- Commented-out handlers and the unused `people` list are not modelled.
- Concurrency: handlers run to completion one at a time, so the model is sequential.
