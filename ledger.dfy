/** The in-memory ledger (`DataProvider`): the transactions, calendar events and
    balance baselines of the logged-in user, and the operations that replace
    them. The session is the `user` the provider reads from the authentication
    service; the operations that consult it (add, complete and the balance
    lookup and upsert) take it as a parameter, while update and delete do not
    look at it. */
module Ledger {

  import opened Options
  import opened Lists
  import opened Records
  import opened Auth

  /** `{ ...e, completed: true, actualProfit }` for every event with id `id`. */
  function MarkCompleted(es: seq<CalendarEvent>, id: string, actualProfit: int): (r: seq<CalendarEvent>)
    ensures |r| == |es|
    ensures forall i :: 0 <= i < |es| && es[i].id != id ==> r[i] == es[i]
    ensures forall i :: 0 <= i < |es| && es[i].id == id ==>
      r[i].completed && r[i].actualProfit == Some(actualProfit)
      && EventDraftOf(r[i]).(actualProfit := None) == EventDraftOf(es[i]).(actualProfit := None)
      && r[i].id == es[i].id && r[i].userId == es[i].userId && r[i].createdAt == es[i].createdAt
  {
    UpdateWhere(es, EventId, id, (e: CalendarEvent) => e.(completed := true, actualProfit := Some(actualProfit)))
  }

  /** `updateTransaction(id, patch)` on the list: every transaction with that id
      gets the patch merged in; every other one stays where it is. */
  function UpdateTransactions(ts: seq<Transaction>, id: string, p: TransactionPatch): (r: seq<Transaction>)
    ensures |r| == |ts|
    ensures forall i :: 0 <= i < |ts| ==> r[i] == if ts[i].id == id then PatchTransaction(ts[i], p) else ts[i]
    ensures (forall i :: 0 <= i < |ts| ==> ts[i].id != id) ==> r == ts
  {
    UpdateWhere(ts, TransactionId, id, t => PatchTransaction(t, p))
  }

  /** `updateEvent(id, patch)` on the list, as `UpdateTransactions`. */
  function UpdateEvents(es: seq<CalendarEvent>, id: string, p: EventPatch): (r: seq<CalendarEvent>)
    ensures |r| == |es|
    ensures forall i :: 0 <= i < |es| ==> r[i] == if es[i].id == id then PatchEvent(es[i], p) else es[i]
    ensures (forall i :: 0 <= i < |es| ==> es[i].id != id) ==> r == es
  {
    UpdateWhere(es, EventId, id, e => PatchEvent(e, p))
  }

  /** The confirmed personal income `completeEvent` records for event `e`. */
  function EventIncome(e: CalendarEvent, actualProfit: int, id: string, userId: string, createdAt: string)
    : (t: Transaction)
    ensures t.id == id && t.userId == userId && t.createdAt == createdAt
    ensures t.mode == Personal && t.txType == Income && t.status == Confirmed && t.recurrence == Once
    ensures t.value == actualProfit && t.date == e.date
    ensures t.description == "Lucro do evento: " + e.name
    ensures t.observations == Some("Gerado automaticamente pelo evento " + e.name)
  {
    Transaction(id, userId, Personal, Income, actualProfit, e.date, "Lucro do evento: " + e.name, Once,
                Confirmed, Some("Gerado automaticamente pelo evento " + e.name), createdAt)
  }

  /** At most one baseline per (user, mode). */
  ghost predicate UniqueBalanceKeys(bs: seq<Balance>) {
    forall i, j :: 0 <= i < j < |bs| ==> BalanceKey(bs[i]) != BalanceKey(bs[j])
  }

  /** `balances.find(b => b.userId === userId && b.mode === mode)?.currentBalance || 0`:
      the first matching baseline, or 0 when there is none. */
  function BalanceOf(bs: seq<Balance>, userId: string, mode: Mode): (r: int)
    ensures (forall i :: 0 <= i < |bs| ==> BalanceKey(bs[i]) != (userId, mode)) ==> r == 0
    ensures (exists i :: 0 <= i < |bs| && BalanceKey(bs[i]) == (userId, mode)) ==>
      exists i :: 0 <= i < |bs| && BalanceKey(bs[i]) == (userId, mode) && r == bs[i].currentBalance
                  && forall j :: 0 <= j < i ==> BalanceKey(bs[j]) != (userId, mode)
  {
    match FindFirst(bs, BalanceKey, (userId, mode))
    case None => 0
    case Some(b) => b.currentBalance
  }

  /** The baselines after `setBalance(mode, value)` by `userId`: every record with
      that key takes the new value if one exists, otherwise one record is
      appended. Reading the key back gives the new value, every other key reads
      as before, and keys stay unique. */
  function UpsertBalance(bs: seq<Balance>, userId: string, mode: Mode, value: int): (r: seq<Balance>)
    ensures BalanceOf(r, userId, mode) == value
    ensures forall u, m :: (u, m) != (userId, mode) ==> BalanceOf(r, u, m) == BalanceOf(bs, u, m)
    ensures |bs| <= |r| <= |bs| + 1
    ensures forall i :: 0 <= i < |bs| && BalanceKey(bs[i]) != (userId, mode) ==> r[i] == bs[i]
    ensures |r| == |bs| + 1 ==> r[|bs|] == Balance(userId, mode, value)
    ensures UniqueBalanceKeys(bs) ==> UniqueBalanceKeys(r)
  {
    var key := (userId, mode);
    if FindFirst(bs, BalanceKey, key).Some? then
      var r := UpdateWhere(bs, BalanceKey, key, (b: Balance) => b.(currentBalance := value));
      UpsertFacts(bs, r, key, value);
      r
    else
      var r := bs + [Balance(userId, mode, value)];
      assert BalanceKey(r[|bs|]) == key;
      UpsertFacts(bs, r, key, value);
      r
  }

  /** What `UpsertBalance` promises, for either way of building its result:
      records keyed `key` carry `value` and at least one exists, the other
      records keep their places, and the only record past the old end (if any)
      is keyed `key` and was not there before. */
  lemma UpsertFacts(bs: seq<Balance>, r: seq<Balance>, key: (string, Mode), value: int)
    requires |bs| <= |r| <= |bs| + 1
    requires |r| == |bs| + 1 ==> forall i :: 0 <= i < |bs| ==> BalanceKey(bs[i]) != key
    requires forall i :: 0 <= i < |bs| ==> BalanceKey(r[i]) == BalanceKey(bs[i])
    requires forall i :: 0 <= i < |bs| && BalanceKey(bs[i]) != key ==> r[i] == bs[i]
    requires forall i :: |bs| <= i < |r| ==> BalanceKey(r[i]) == key
    requires forall i :: 0 <= i < |r| && BalanceKey(r[i]) == key ==> r[i].currentBalance == value
    requires exists i :: 0 <= i < |r| && BalanceKey(r[i]) == key
    ensures BalanceOf(r, key.0, key.1) == value
    ensures forall u, m :: (u, m) != key ==> BalanceOf(r, u, m) == BalanceOf(bs, u, m)
    ensures UniqueBalanceKeys(bs) ==> UniqueBalanceKeys(r)
  {
    forall u, m | (u, m) != key ensures BalanceOf(r, u, m) == BalanceOf(bs, u, m) {
      FirstMatchAgrees(bs, r, (u, m), key);
    }
  }

  /** When `r` agrees with `bs` on every record whose key is not `changed`, and
      the records keyed `k` sit at the same places in both, the first record
      keyed `k` is the same in both. */
  lemma FirstMatchAgrees(bs: seq<Balance>, r: seq<Balance>, k: (string, Mode), changed: (string, Mode))
    requires k != changed
    requires |bs| <= |r|
    requires forall i :: 0 <= i < |bs| ==> BalanceKey(r[i]) == BalanceKey(bs[i])
    requires forall i :: 0 <= i < |bs| && BalanceKey(bs[i]) != changed ==> r[i] == bs[i]
    requires forall i :: |bs| <= i < |r| ==> BalanceKey(r[i]) == changed
    ensures BalanceOf(r, k.0, k.1) == BalanceOf(bs, k.0, k.1)
  {
    var a := FindFirst(bs, BalanceKey, k);
    var b := FindFirst(r, BalanceKey, k);
    if a.Some? {
      var i :| 0 <= i < |bs| && bs[i] == a.value && BalanceKey(bs[i]) == k
               && forall j :: 0 <= j < i ==> BalanceKey(bs[j]) != k;
      var i' :| 0 <= i' < |r| && r[i'] == b.value && BalanceKey(r[i']) == k
                && forall j :: 0 <= j < i' ==> BalanceKey(r[j]) != k;
      assert i == i';
    }
  }

  /** `DataProvider`: the three state lists every mutator replaces. */
  class DataStore {
    var transactions: seq<Transaction>
    var events: seq<CalendarEvent>
    var balances: seq<Balance>

    ghost predicate Valid()
      reads this
    {
      UniqueBalanceKeys(balances)
    }

    /** The provider's initial state: three empty lists. */
    constructor ()
      ensures Valid()
      ensures transactions == [] && events == [] && balances == []
    {
      transactions, events, balances := [], [], [];
    }

    /** `addTransaction(draft)`: nothing without a session; otherwise one new
        transaction, owned by the session's user, at the end. `newId` and
        `createdAt` are the fresh UUID and the timestamp it draws. */
    method AddTransaction(session: Option<User>, draft: TransactionDraft, newId: string, createdAt: string)
      requires Valid()
      requires forall i :: 0 <= i < |transactions| ==> transactions[i].id != newId
      modifies this`transactions
      ensures Valid()
      ensures session.None? ==> transactions == old(transactions)
      ensures session.Some? ==>
        transactions == old(transactions) + [NewTransaction(draft, newId, session.value.id, createdAt)]
    {
      if session.None? {
        return;
      }
      transactions := transactions + [NewTransaction(draft, newId, session.value.id, createdAt)];
    }

    /** `updateTransaction(id, patch)`; no session check. */
    method UpdateTransaction(id: string, patch: TransactionPatch)
      requires Valid()
      modifies this`transactions
      ensures Valid()
      ensures transactions == UpdateTransactions(old(transactions), id, patch)
    {
      transactions := UpdateTransactions(transactions, id, patch);
    }

    /** `deleteTransaction(id)`; no session check. */
    method DeleteTransaction(id: string)
      requires Valid()
      modifies this`transactions
      ensures Valid()
      ensures transactions == RemoveWhere(old(transactions), TransactionId, id)
    {
      transactions := RemoveWhere(transactions, TransactionId, id);
    }

    /** `addEvent(draft)`: nothing without a session; otherwise one new,
        not completed event at the end. */
    method AddEvent(session: Option<User>, draft: EventDraft, newId: string, createdAt: string)
      requires Valid()
      requires forall i :: 0 <= i < |events| ==> events[i].id != newId
      modifies this`events
      ensures Valid()
      ensures session.None? ==> events == old(events)
      ensures session.Some? ==> events == old(events) + [NewEvent(draft, newId, session.value.id, createdAt)]
    {
      if session.None? {
        return;
      }
      events := events + [NewEvent(draft, newId, session.value.id, createdAt)];
    }

    /** `updateEvent(id, patch)`; no session check. */
    method UpdateEvent(id: string, patch: EventPatch)
      requires Valid()
      modifies this`events
      ensures Valid()
      ensures events == UpdateEvents(old(events), id, patch)
    {
      events := UpdateEvents(events, id, patch);
    }

    /** `deleteEvent(id)`; no session check. */
    method DeleteEvent(id: string)
      requires Valid()
      modifies this`events
      ensures Valid()
      ensures events == RemoveWhere(old(events), EventId, id)
    {
      events := RemoveWhere(events, EventId, id);
    }

    /** `completeEvent(id, actualProfit)`: nothing when no event has the id or
        nobody is logged in; otherwise every event with the id is marked
        completed with that profit, and one confirmed income transaction made
        from the first of them is appended. Whether the event was already
        completed is not looked at. */
    method CompleteEvent(session: Option<User>, id: string, actualProfit: int, newId: string, createdAt: string)
      requires Valid()
      requires forall i :: 0 <= i < |transactions| ==> transactions[i].id != newId
      modifies this`events, this`transactions
      ensures Valid()
      ensures FindFirst(old(events), EventId, id).None? || session.None? ==>
        events == old(events) && transactions == old(transactions)
      ensures FindFirst(old(events), EventId, id).Some? && session.Some? ==>
        && events == MarkCompleted(old(events), id, actualProfit)
        && transactions == old(transactions) + [EventIncome(FindFirst(old(events), EventId, id).value,
                                                            actualProfit, newId, session.value.id, createdAt)]
    {
      var event := FindFirst(events, EventId, id);
      if event.None? || session.None? {
        return;
      }
      events := MarkCompleted(events, id, actualProfit);
      transactions := transactions + [EventIncome(event.value, actualProfit, newId, session.value.id, createdAt)];
    }

    /** `getBalance(mode)`: 0 without a session, otherwise the user's baseline for `mode`. */
    function GetBalance(session: Option<User>, mode: Mode): (r: int)
      reads this
      ensures session.None? ==> r == 0
      ensures session.Some? && (forall i :: 0 <= i < |balances| ==> BalanceKey(balances[i]) != (session.value.id, mode))
        ==> r == 0
      ensures session.Some? && Valid() ==>
        forall i :: 0 <= i < |balances| && BalanceKey(balances[i]) == (session.value.id, mode)
          ==> r == balances[i].currentBalance
    {
      if session.None? then 0 else BalanceOf(balances, session.value.id, mode)
    }

    /** `setBalance(mode, value)`: nothing without a session; otherwise the
        user's baseline for `mode` becomes `value`. */
    method SetBalance(session: Option<User>, mode: Mode, value: int)
      requires Valid()
      modifies this`balances
      ensures Valid()
      ensures session.None? ==> balances == old(balances)
      ensures session.Some? ==> balances == UpsertBalance(old(balances), session.value.id, mode, value)
      ensures session.Some? ==> GetBalance(session, mode) == value
    {
      if session.None? {
        return;
      }
      balances := UpsertBalance(balances, session.value.id, mode, value);
    }
  }

  /** The prior completion state is not looked at: completing the same event
      twice records two income transactions made from that event, and the
      event keeps the second profit. */
  method CompleteTwice(store: DataStore, session: Option<User>, id: string, first: int, second: int,
                       firstId: string, secondId: string, createdAt: string)
    requires store.Valid() && session.Some?
    requires FindFirst(store.events, EventId, id).Some?
    requires forall i :: 0 <= i < |store.transactions| ==> store.transactions[i].id != firstId
    requires forall i :: 0 <= i < |store.transactions| ==> store.transactions[i].id != secondId
    requires firstId != secondId
    modifies store`events, store`transactions
    ensures store.Valid()
    ensures store.balances == old(store.balances)
    ensures store.transactions == old(store.transactions) + [
      EventIncome(FindFirst(old(store.events), EventId, id).value, first, firstId, session.value.id, createdAt),
      EventIncome(FindFirst(old(store.events), EventId, id).value, second, secondId, session.value.id, createdAt)]
    ensures store.events == MarkCompleted(old(store.events), id, second)
  {
    var event := FindFirst(store.events, EventId, id).value;
    store.CompleteEvent(session, id, first, firstId, createdAt);
    IdStaysFresh(old(store.transactions), EventIncome(event, first, firstId, session.value.id, createdAt), secondId);
    FindAfterMarkCompleted(old(store.events), id, first);
    var again := FindFirst(store.events, EventId, id).value;
    assert EventIncome(again, second, secondId, session.value.id, createdAt)
        == EventIncome(event, second, secondId, session.value.id, createdAt);
    store.CompleteEvent(session, id, second, secondId, createdAt);
    MarkCompletedAgain(old(store.events), id, first, second);
    AppendTwo(old(store.transactions), EventIncome(event, first, firstId, session.value.id, createdAt),
              EventIncome(event, second, secondId, session.value.id, createdAt));
  }

  lemma AppendTwo(ts: seq<Transaction>, a: Transaction, b: Transaction)
    ensures ts + [a] + [b] == ts + [a, b]
  {
  }

  /** Appending a record with another id keeps `id` unused. */
  lemma IdStaysFresh(ts: seq<Transaction>, t: Transaction, id: string)
    requires forall i :: 0 <= i < |ts| ==> ts[i].id != id
    requires t.id != id
    ensures forall i :: 0 <= i < |ts + [t]| ==> (ts + [t])[i].id != id
  {
  }

  /** Completing with a second profit overrides the first. */
  lemma MarkCompletedAgain(es: seq<CalendarEvent>, id: string, first: int, second: int)
    ensures MarkCompleted(MarkCompleted(es, id, first), id, second) == MarkCompleted(es, id, second)
  {
  }

  /** Completing leaves the first event with the id where it was, with the
      same name and date. */
  lemma FindAfterMarkCompleted(es: seq<CalendarEvent>, id: string, actualProfit: int)
    requires FindFirst(es, EventId, id).Some?
    ensures FindFirst(MarkCompleted(es, id, actualProfit), EventId, id).Some?
    ensures FindFirst(MarkCompleted(es, id, actualProfit), EventId, id).value.date == FindFirst(es, EventId, id).value.date
    ensures FindFirst(MarkCompleted(es, id, actualProfit), EventId, id).value.name == FindFirst(es, EventId, id).value.name
  {
    FindFirstUpdated(es, EventId, id, (e: CalendarEvent) => e.(completed := true, actualProfit := Some(actualProfit)));
  }

}
