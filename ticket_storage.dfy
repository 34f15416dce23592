/** src/hooks/useTicketStorage.ts: the list of saved tickets kept in the browser.

    The hook's `tickets` state is the field of a `TicketStore`; `localStorage` is a
    log of the writes made to it. Loading the list, `Date.now()` and
    `Math.random()` are outside the model: the loaded list, the new ticket's id and
    its creation time are arguments. */
module TicketStorage {
  import opened Base

  /** `MAX_TICKETS`. */
  const MaxTickets: nat := 100

  datatype Winning = Winning(province: string, prize: string, prizeAmount: nat)

  /** The fields the caller of `addTicket` gives; an optional field that is not
      given is `None`. */
  datatype TicketInput = TicketInput(
    number: string,
    date: string,
    province: Option<string>,
    winnings: Option<seq<Winning>>)

  /** `SavedTicket`. */
  datatype SavedTicket = SavedTicket(
    id: string,
    number: string,
    date: string,
    province: Option<string>,
    winnings: Option<seq<Winning>>,
    createdAt: nat)

  /** A write to `localStorage` under `lottery_tickets`. */
  datatype StorageWrite = SetItem(tickets: seq<SavedTicket>) | RemoveItem

  /** The ticket `addTicket` builds. */
  function NewTicket(input: TicketInput, id: string, now: nat): SavedTicket
  {
    SavedTicket(id, input.number, input.date, input.province, input.winnings, now)
  }

  /** The duplicate test: the same number for the same draw date. */
  predicate SameDraw(t: SavedTicket, input: TicketInput)
  {
    t.number == input.number && t.date == input.date
  }

  /** `prev.find(...)` finds a ticket. */
  predicate HasDraw(prev: seq<SavedTicket>, input: TicketInput)
  {
    exists i :: 0 <= i < |prev| && SameDraw(prev[i], input)
  }

  /** `{ ...t, ...ticket }`: the given fields replace the stored ones. */
  function Merge(t: SavedTicket, input: TicketInput): SavedTicket
  {
    t.(number := input.number, date := input.date,
       province := if input.province.Some? then input.province else t.province,
       winnings := if input.winnings.Some? then input.winnings else t.winnings)
  }

  /** The list `addTicket` computes from `prev`. */
  function Added(prev: seq<SavedTicket>, input: TicketInput, id: string, now: nat): seq<SavedTicket>
  {
    if HasDraw(prev, input) then
      seq(|prev|, i requires 0 <= i < |prev| => if SameDraw(prev[i], input) then Merge(prev[i], input) else prev[i])
    else
      Slice([NewTicket(input, id, now)] + prev, 0, MaxTickets)
  }

  /** The list `removeTicket` computes from `prev`. */
  function Removed(prev: seq<SavedTicket>, id: string): seq<SavedTicket>
  {
    Filter(prev, (t: SavedTicket) => t.id != id)
  }

  class TicketStore {
    var tickets: seq<SavedTicket>
    var writes: seq<StorageWrite>

    /** The hook after loading `loaded` from storage. */
    constructor(loaded: seq<SavedTicket>)
      ensures tickets == loaded && writes == []
    {
      tickets := loaded;
      writes := [];
    }

    /** `addTicket(input)`: update the tickets of the same draw or put a new one
        first, save the list, and return the ticket that was built. */
    method AddTicket(input: TicketInput, id: string, now: nat) returns (newTicket: SavedTicket)
      modifies this
      ensures newTicket == NewTicket(input, id, now)
      ensures tickets == Added(old(tickets), input, id, now)
      ensures writes == old(writes) + [SetItem(tickets)]
      ensures |old(tickets)| <= MaxTickets ==> |tickets| <= MaxTickets
    {
      newTicket := NewTicket(input, id, now);
      var updated := Added(tickets, input, id, now);
      if HasDraw(tickets, input) {
        AddUpdates(tickets, input, id, now);
      } else {
        AddPrepends(tickets, input, id, now);
      }
      writes := writes + [SetItem(updated)];
      tickets := updated;
    }

    /** `removeTicket(id)`. */
    method RemoveTicket(id: string)
      modifies this
      ensures tickets == Removed(old(tickets), id)
      ensures writes == old(writes) + [SetItem(tickets)]
      ensures |tickets| <= |old(tickets)|
    {
      var updated := Removed(tickets, id);
      writes := writes + [SetItem(updated)];
      tickets := updated;
    }

    /** `clearAllTickets()`. */
    method ClearAllTickets()
      modifies this
      ensures tickets == []
      ensures writes == old(writes) + [RemoveItem]
    {
      tickets := [];
      writes := writes + [RemoveItem];
    }
  }

  /** Adding a ticket for a draw already saved keeps the list's length and
      order: every ticket of that draw takes the given fields and keeps its id and
      creation time, every other ticket stays as it was. */
  lemma AddUpdates(prev: seq<SavedTicket>, input: TicketInput, id: string, now: nat)
    requires HasDraw(prev, input)
    ensures var r := Added(prev, input, id, now);
      && |r| == |prev|
      && forall i :: 0 <= i < |prev| ==>
           if SameDraw(prev[i], input) then
             r[i].id == prev[i].id && r[i].createdAt == prev[i].createdAt
             && r[i].number == input.number && r[i].date == input.date
             && (input.province.Some? ==> r[i].province == input.province)
             && (input.winnings.Some? ==> r[i].winnings == input.winnings)
           else r[i] == prev[i]
  {
  }

  /** Adding a ticket for a new draw puts it first, keeps the others in order
      after it and cuts the list to `MaxTickets`. */
  lemma AddPrepends(prev: seq<SavedTicket>, input: TicketInput, id: string, now: nat)
    requires !HasDraw(prev, input)
    ensures var r := Added(prev, input, id, now);
      && |r| == (if |prev| < MaxTickets then |prev| + 1 else MaxTickets)
      && r[0] == NewTicket(input, id, now)
      && r[1..] == prev[..|r| - 1]
  {
    var r := Added(prev, input, id, now);
    assert r[1..] == ([NewTicket(input, id, now)] + prev)[1..|r|];
  }

  /** Updating with the same fields twice is updating once. */
  lemma UpdateIdempotent(prev: seq<SavedTicket>, input: TicketInput, id: string, id2: string, now: nat, now2: nat)
    requires HasDraw(prev, input)
    ensures Added(Added(prev, input, id, now), input, id2, now2) == Added(prev, input, id, now)
  {
    var r := Added(prev, input, id, now);
    var i :| 0 <= i < |prev| && SameDraw(prev[i], input);
    assert SameDraw(r[i], input);
    var r2 := Added(r, input, id2, now2);
    assert |r2| == |r|;
    forall k | 0 <= k < |r|
      ensures r2[k] == r[k]
    {
      if SameDraw(prev[k], input) {
        assert SameDraw(r[k], input);
        assert Merge(Merge(prev[k], input), input) == Merge(prev[k], input);
      } else {
        assert r[k] == prev[k];
      }
    }
  }

  /** Removing drops every ticket with the id and keeps the rest in order. */
  lemma RemovedExact(prev: seq<SavedTicket>, id: string, t: SavedTicket)
    ensures t in Removed(prev, id) <==> t in prev && t.id != id
    ensures Embeds(Removed(prev, id), prev)
  {
    FilterEmbeds(prev, (t: SavedTicket) => t.id != id);
  }

  /** Removing a ticket just added for a new draw, under an id not used before,
      gives the list back when it was not full. */
  lemma AddThenRemove(prev: seq<SavedTicket>, input: TicketInput, id: string, now: nat)
    requires !HasDraw(prev, input) && |prev| < MaxTickets
    requires forall i :: 0 <= i < |prev| ==> prev[i].id != id
    ensures Removed(Added(prev, input, id, now), id) == prev
  {
    var keep := (t: SavedTicket) => t.id != id;
    var r := Added(prev, input, id, now);
    assert r == [NewTicket(input, id, now)] + prev;
    assert r[1..] == prev;
    FilterNoOp(prev, keep);
  }
}
