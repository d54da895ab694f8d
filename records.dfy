/** The ledger's record types (`Transaction`, `CalendarEvent`, `Balance`), the
    inputs its `add` operations take and the partial updates its `update`
    operations merge in. Money is whole cents. */
module Records {

  import opened Options
  import opened Dates

  datatype Mode = Personal | Business
  datatype TransactionType = Income | Expense
  datatype Recurrence = Once | Monthly | Yearly
  datatype TransactionStatus = Pending | Confirmed

  datatype Transaction = Transaction(
    id: string,
    userId: string,
    mode: Mode,
    txType: TransactionType,
    value: int,
    date: Instant,
    description: string,
    recurrence: Recurrence,
    status: TransactionStatus,
    observations: Option<string>,
    createdAt: string)

  datatype CalendarEvent = CalendarEvent(
    id: string,
    userId: string,
    name: string,
    date: Instant,
    expectedProfit: int,
    actualProfit: Option<int>,
    completed: bool,
    description: Option<string>,
    createdAt: string)

  datatype Balance = Balance(userId: string, mode: Mode, currentBalance: int)

  /** `Omit<Transaction, "id" | "userId" | "createdAt">`. */
  datatype TransactionDraft = TransactionDraft(
    mode: Mode,
    txType: TransactionType,
    value: int,
    date: Instant,
    description: string,
    recurrence: Recurrence,
    status: TransactionStatus,
    observations: Option<string>)

  /** `Omit<CalendarEvent, "id" | "userId" | "completed" | "createdAt">`:
      `actualProfit` is not omitted, so a new event may already carry one. */
  datatype EventDraft = EventDraft(
    name: string,
    date: Instant,
    expectedProfit: int,
    actualProfit: Option<int>,
    description: Option<string>)

  /** `Partial<Transaction>`: `None` leaves a field alone. For an optional field,
      `Some(None)` is a key present with the value `undefined`, which the
      spread copies over the old value. */
  datatype TransactionPatch = TransactionPatch(
    id: Option<string>,
    userId: Option<string>,
    mode: Option<Mode>,
    txType: Option<TransactionType>,
    value: Option<int>,
    date: Option<Instant>,
    description: Option<string>,
    recurrence: Option<Recurrence>,
    status: Option<TransactionStatus>,
    observations: Option<Option<string>>,
    createdAt: Option<string>)

  /** `Partial<CalendarEvent>`, read as `TransactionPatch` is. */
  datatype EventPatch = EventPatch(
    id: Option<string>,
    userId: Option<string>,
    name: Option<string>,
    date: Option<Instant>,
    expectedProfit: Option<int>,
    actualProfit: Option<Option<int>>,
    completed: Option<bool>,
    description: Option<Option<string>>,
    createdAt: Option<string>)

  function TransactionId(t: Transaction): string { t.id }
  function EventId(e: CalendarEvent): string { e.id }
  function BalanceKey(b: Balance): (string, Mode) { (b.userId, b.mode) }

  /** The fields a caller of `addTransaction` supplies. */
  function TransactionDraftOf(t: Transaction): TransactionDraft {
    TransactionDraft(t.mode, t.txType, t.value, t.date, t.description, t.recurrence, t.status, t.observations)
  }

  /** The fields a caller of `addEvent` supplies. */
  function EventDraftOf(e: CalendarEvent): EventDraft {
    EventDraft(e.name, e.date, e.expectedProfit, e.actualProfit, e.description)
  }

  /** `{ ...draft, id, userId, createdAt }`. */
  function NewTransaction(d: TransactionDraft, id: string, userId: string, createdAt: string): (t: Transaction)
    ensures TransactionDraftOf(t) == d
    ensures t.id == id && t.userId == userId && t.createdAt == createdAt
  {
    Transaction(id, userId, d.mode, d.txType, d.value, d.date, d.description, d.recurrence, d.status,
                d.observations, createdAt)
  }

  /** `{ ...draft, id, userId, completed: false, createdAt }`. */
  function NewEvent(d: EventDraft, id: string, userId: string, createdAt: string): (e: CalendarEvent)
    ensures EventDraftOf(e) == d
    ensures e.id == id && e.userId == userId && !e.completed && e.createdAt == createdAt
  {
    CalendarEvent(id, userId, d.name, d.date, d.expectedProfit, d.actualProfit, false, d.description, createdAt)
  }

  /** `{ ...t, ...patch }`. */
  function PatchTransaction(t: Transaction, p: TransactionPatch): Transaction {
    Transaction(
      p.id.GetOr(t.id), p.userId.GetOr(t.userId), p.mode.GetOr(t.mode), p.txType.GetOr(t.txType),
      p.value.GetOr(t.value), p.date.GetOr(t.date), p.description.GetOr(t.description),
      p.recurrence.GetOr(t.recurrence), p.status.GetOr(t.status), p.observations.GetOr(t.observations),
      p.createdAt.GetOr(t.createdAt))
  }

  /** `{ ...e, ...patch }`. */
  function PatchEvent(e: CalendarEvent, p: EventPatch): CalendarEvent {
    CalendarEvent(
      p.id.GetOr(e.id), p.userId.GetOr(e.userId), p.name.GetOr(e.name), p.date.GetOr(e.date),
      p.expectedProfit.GetOr(e.expectedProfit), p.actualProfit.GetOr(e.actualProfit),
      p.completed.GetOr(e.completed), p.description.GetOr(e.description), p.createdAt.GetOr(e.createdAt))
  }

  const NoTransactionChange := TransactionPatch(None, None, None, None, None, None, None, None, None, None, None)
  const NoEventChange := EventPatch(None, None, None, None, None, None, None, None, None)

  /** An empty patch leaves a record as it is, and merging a patch twice is
      merging it once. */
  lemma PatchLaws(t: Transaction, p: TransactionPatch, e: CalendarEvent, q: EventPatch)
    ensures PatchTransaction(t, NoTransactionChange) == t
    ensures PatchTransaction(PatchTransaction(t, p), p) == PatchTransaction(t, p)
    ensures PatchEvent(e, NoEventChange) == e
    ensures PatchEvent(PatchEvent(e, q), q) == PatchEvent(e, q)
  {
  }
}
