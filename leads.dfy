/** The `leads` table of app.py: one row per phone number, and the
    insert-or-patch rule of `update_lead` as a function on that table. */
module Leads {
  import opened PyStr

  /** The values the `status` column is read as. `New` is what a phone number
      with no row reads as; the other six are the ones the router writes. */
  datatype Status = New | Q1 | Q2 | Q3 | Hot | Warm | Cold

  /** A status that can stand in a row: the code never writes `New`. */
  type StoredStatus = s: Status | s != New witness Q1

  /** The three final classifications. */
  type Classification = s: Status | s == Hot || s == Warm || s == Cold witness Cold

  predicate IsTerminal(s: Status) {
    s == Hot || s == Warm || s == Cold
  }

  /** Position of a status along the funnel NEW, Q1, Q2, Q3, classified. */
  function Rank(s: Status): (n: nat)
    ensures n <= 4
    ensures n == 0 <==> s == New
    ensures n == 4 <==> IsTerminal(s)
  {
    match s
    case New => 0
    case Q1 => 1
    case Q2 => 2
    case Q3 => 3
    case _ => 4
  }

  /** One row of the table, without its key and its auto-increment id. A column
      that is NULL is `None`; `timestamp` is always set, because rows come into
      being only by the insert that stamps it. */
  datatype Lead = Lead(
    zipCode: Option<string>,
    status: StoredStatus,
    qualScore: Option<int>,
    projectType: Option<string>,
    timestamp: string)

  /** The keyword arguments of an `update_lead` call: each field is `Some` when
      the call names that column. */
  datatype Patch = Patch(
    zipCode: Option<string>,
    projectType: Option<string>,
    status: Option<StoredStatus>,
    qualScore: Option<int>)
  {
    /** The call names at least one column. */
    predicate NamesAColumn() {
      zipCode.Some? || projectType.Some? || status.Some? || qualScore.Some?
    }
  }

  type Table = map<string, Lead>

  /** The range of an SQLite INTEGER: sqlite3 raises OverflowError when it is
      asked to bind a Python int outside the signed 64-bit range. */
  const MinInteger: int := -0x8000_0000_0000_0000
  const MaxInteger: int := 0x7FFF_FFFF_FFFF_FFFF

  predicate FitsInteger(i: int) {
    MinInteger <= i <= MaxInteger
  }

  /** Every value the patch names can be bound as a statement parameter. */
  predicate Binds(p: Patch) {
    p.qualScore.Some? ==> FitsInteger(p.qualScore.value)
  }

  /** `get_lead_status`: the stored status, or `New` when the phone has no row. */
  function StatusOf(leads: Table, phone: string): (s: Status)
    ensures s == New <==> phone !in leads
    ensures phone in leads ==> s == leads[phone].status
  {
    if phone in leads then leads[phone].status else New
  }

  /** The columns a patch names overwrite the row's; all others stay. */
  function ApplyPatch(l: Lead, p: Patch): (r: Lead)
    ensures r.timestamp == l.timestamp
    ensures r.zipCode == (if p.zipCode.Some? then p.zipCode else l.zipCode)
    ensures r.projectType == (if p.projectType.Some? then p.projectType else l.projectType)
    ensures r.status == (if p.status.Some? then p.status.value else l.status)
    ensures r.qualScore == (if p.qualScore.Some? then p.qualScore else l.qualScore)
  {
    Lead(
      if p.zipCode.Some? then p.zipCode else l.zipCode,
      if p.status.Some? then p.status.value else l.status,
      if p.qualScore.Some? then p.qualScore else l.qualScore,
      if p.projectType.Some? then p.projectType else l.projectType,
      l.timestamp)
  }

  /** The row the first message inserts: status Q1, the creation time, nothing else. */
  function FreshLead(now: string): Lead {
    Lead(None, Q1, None, None, now)
  }

  /** Whether `update_lead` takes its INSERT branch: the phone reads as NEW and
      the call sets the status to Q1. */
  predicate Inserts(leads: Table, phone: string, p: Patch) {
    StatusOf(leads, phone) == New && p.status == Some(Q1)
  }

  /** Whether `update_lead` raises: the UPDATE branch binds the patch's values,
      which fails for a score outside the 64-bit range, before the statement
      runs. The INSERT branch binds only the phone, `'Q1'` and the time. */
  predicate UpdateOverflows(leads: Table, phone: string, p: Patch) {
    !Inserts(leads, phone, p) && !Binds(p)
  }

  /** The table after `update_lead(phone, **p)` at time `now`. The INSERT writes
      only status Q1 and the timestamp, whatever else the call names; the UPDATE
      touches only that phone's row, and matches no row when there is none. An
      UPDATE whose values do not bind raises before anything is written. */
  function Upserted(leads: Table, phone: string, p: Patch, now: string): (r: Table)
    ensures phone in r <==> phone in leads || p.status == Some(Q1)
    ensures phone !in leads && p.status == Some(Q1) ==> r[phone] == FreshLead(now)
    ensures phone in leads && Binds(p) ==>
              r[phone].timestamp == leads[phone].timestamp &&
              r == leads[phone := ApplyPatch(leads[phone], p)]
    ensures UpdateOverflows(leads, phone, p) || (phone !in leads && p.status != Some(Q1)) ==> r == leads
  {
    if Inserts(leads, phone, p) then leads[phone := FreshLead(now)]
    else if phone in leads && Binds(p) then leads[phone := ApplyPatch(leads[phone], p)]
    else leads
  }

  /** `update_lead` leaves every other phone's row as it was, and adds or drops none. */
  lemma UpsertTouchesOnlyPhone(leads: Table, phone: string, p: Patch, now: string, q: string)
    requires q != phone
    ensures q in Upserted(leads, phone, p, now) <==> q in leads
    ensures q in leads ==> Upserted(leads, phone, p, now)[q] == leads[q]
  {
  }
}
