/** The tables of the shipped store (go/sqlite/sqlite.go), keyed by account. Each method
    is proved to be the abstract call of Records on its own account and to leave every
    other account alone. */
module Sqlite {
  import opened Types
  import opened Records
  import Spec = Records

  const TWO63: int := 0x8000_0000_0000_0000
  const TWO64: int := 0x1_0000_0000_0000_0000

  type Int64 = i: int | -TWO63 <= i < TWO63
  type Uint64 = n: int | 0 <= n < TWO64

  /** A 64-bit word stored as a signed integer keeps its bits, not its order. */
  function ToInt64(n: Uint64): (i: Int64)
    ensures ToUint64(i) == n
  {
    if n < TWO63 then n else n - TWO64
  }

  function ToUint64(i: Int64): Uint64 {
    if i < 0 then i + TWO64 else i
  }

  datatype IntentRow = IntentRow(kind: Kind, dest: Address, amount: int, delta: int, nonce: Int64,
                                 calldata: Calldata, fromBlock: Int64)
  datatype SubmissionRow = SubmissionRow(txHash: Hash, gas: Int64, tip: int, feeCap: int)
  datatype FactRow = FactRow(txHash: Hash, block: Int64, executed: Int64)
  datatype DepositRow = DepositRow(sender: Address, amount: int, block: Int64)
  datatype CursorRow = CursorRow(depositBlock: Option<Int64>, nonceFloor: Option<Int64>)

  /** The tables by primary key. `attempts` groups the submission rows of each identifier in their order. */
  datatype Tables = Tables(
    intents: map<(Address, ID), IntentRow>,
    submissions: map<(Address, ID, int), SubmissionRow>,
    attempts: map<(Address, ID), seq<SubmissionRow>>,
    facts: map<(Address, ID), FactRow>,
    deposits: map<(Address, LogKey), DepositRow>,
    cursors: map<Address, CursorRow>)

  // ----- rows as records -----

  function IntentFrom(id: ID, r: IntentRow): Intent {
    Intent(id, r.kind, r.dest, r.amount, r.delta, ToUint64(r.nonce), r.calldata, ToUint64(r.fromBlock))
  }

  function SubmissionFrom(r: SubmissionRow): Submission {
    Submission(r.txHash, ToUint64(r.gas), r.tip, r.feeCap)
  }

  function AttemptsFrom(id: ID, rows: seq<SubmissionRow>): (subs: seq<Submission>)
    ensures |subs| == |rows| && forall n :: 0 <= n < |rows| ==> subs[n] == SubmissionFrom(rows[n])
  {
    seq(|rows|, n requires 0 <= n < |rows| => SubmissionFrom(rows[n]))
  }

  function FactFrom(id: ID, r: FactRow): Fact {
    Fact(r.txHash, ToUint64(r.block), r.executed != 0)
  }

  function DepositFrom(k: LogKey, r: DepositRow): Deposit {
    Deposit(r.sender, r.amount, ToUint64(r.block))
  }

  /** One account's part of a table, read as records. */
  ghost function Project<K(!new), R, V>(table: map<(Address, K), R>, a: Address, from: (K, R) -> V): map<K, V> {
    map k | k in table && k.0 == a :: k.1 := from(k.1, table[k])
  }

  lemma ProjectAt<K(!new), R, V>(table: map<(Address, K), R>, a: Address, from: (K, R) -> V)
    ensures var m := Project(table, a, from);
            && (forall k {:trigger k in m} :: k in m <==> (a, k) in table)
            && (forall k {:trigger m[k]} :: k in m ==> m[k] == from(k, table[(a, k)]))
  {
  }

  lemma ProjectPut<K(!new), R, V>(table: map<(Address, K), R>, a: Address, k: K, r: R, from: (K, R) -> V, b: Address)
    ensures Project(table[(a, k) := r], b, from)
            == if b == a then Project(table, b, from)[k := from(k, r)] else Project(table, b, from)
  {
  }

  ghost function Attempts(t: Tables, a: Address, id: ID): seq<SubmissionRow> {
    if (a, id) in t.attempts then t.attempts[(a, id)] else []
  }

  /** Attempts are numbered from zero without a gap. */
  ghost predicate Numbered(t: Tables) {
    && (forall k :: k in t.submissions ==>
          0 <= k.2 < |Attempts(t, k.0, k.1)| && t.submissions[k] == Attempts(t, k.0, k.1)[k.2])
    && (forall a: Address, id: ID, n: int {:trigger (a, id, n) in t.submissions} ::
          0 <= n < |Attempts(t, a, id)| ==> (a, id, n) in t.submissions)
  }

  function CellFrom(cell: Option<Int64>): Option<nat> {
    if cell.Some? then Some(ToUint64(cell.value)) else None
  }

  function Row(t: Tables, a: Address): CursorRow {
    if a in t.cursors then t.cursors[a] else CursorRow(None, None)
  }

  ghost function View(t: Tables, a: Address): Records {
    Records(Project(t.intents, a, IntentFrom), Project(t.attempts, a, AttemptsFrom), Project(t.facts, a, FactFrom),
            Project(t.deposits, a, DepositFrom), CellFrom(Row(t, a).depositBlock), CellFrom(Row(t, a).nonceFloor))
  }

  /** The unique index: one nonce of an account carries one intent. */
  ghost predicate NoncesUnique(t: Tables) {
    forall j, k :: j in t.intents && k in t.intents && j.0 == k.0 && t.intents[j].nonce == t.intents[k].nonce ==> j == k
  }

  ghost predicate Sound(t: Tables) {
    && NoncesUnique(t) && Numbered(t)
    && (forall k :: k in t.intents ==> IntentFrom(k.1, t.intents[k]).Valid())
  }

  /** Whether some row of the account has this nonce. */
  predicate Taken(intents: map<(Address, ID), IntentRow>, a: Address, nonce: Int64) {
    exists k :: k in intents && k.0 == a && intents[k].nonce == nonce
  }

  /** What the two uniqueness constraints give: each account's view is keyed by
      identifier and by nonce. */
  lemma ViewIsKeyed(t: Tables, a: Address)
    requires Sound(t)
    ensures Keyed(View(t, a))
  {
    hide Numbered, Project;
    var r := View(t, a);
    ProjectAt(t.intents, a, IntentFrom);
    forall x, y | x in r.intents && y in r.intents && r.intents[x].nonce == r.intents[y].nonce ensures x == y {
      assert t.intents[(a, x)].nonce == t.intents[(a, y)].nonce;
    }
  }

  lemma TakenIs(t: Tables, a: Address, n: Uint64)
    ensures NonceTaken(View(t, a), n) <==> Taken(t.intents, a, ToInt64(n))
  {
    hide Project;
    var r := View(t, a);
    ProjectAt(t.intents, a, IntentFrom);
    if Taken(t.intents, a, ToInt64(n)) {
      var k :| k in t.intents && k.0 == a && t.intents[k].nonce == ToInt64(n);
      assert k == (a, k.1) && k.1 in r.intents;
      assert r.intents[k.1].nonce == n;
    }
    if NonceTaken(r, n) {
      var id :| id in r.intents && r.intents[id].nonce == n;
      assert t.intents[(a, id)].nonce == ToInt64(n);
    }
  }

  predicate InWidth(i: Intent) {
    i.nonce < TWO64 && i.fromBlock < TWO64
  }

  // ----- cursors -----

  datatype Column = DepositBlock | NonceFloor

  function Cell(r: CursorRow, c: Column): Option<Int64> {
    if c.DepositBlock? then r.depositBlock else r.nonceFloor
  }

  function SetCell(r: CursorRow, c: Column, v: Int64): CursorRow {
    if c.DepositBlock? then r.(depositBlock := Some(v)) else r.(nonceFloor := Some(v))
  }

  /** INSERT .. ON CONFLICT DO UPDATE SET x = MAX(COALESCE(x, 0), excluded.x). */
  function Upsert(row: Option<CursorRow>, c: Column, v: Int64): CursorRow {
    if row.None? then SetCell(CursorRow(None, None), c, v) else
      var held := if Cell(row.value, c).Some? then Cell(row.value, c).value else 0;
      SetCell(row.value, c, if held >= v then held else v)
  }

  /** The update is the abstract advance exactly when no row exists yet, or the value
      and what it is compared with fall on the same side of 2^63: the comparison is
      signed, and an unset cell counts as zero. */
  lemma AdvanceExactly(row: Option<CursorRow>, c: Column, v: Uint64)
    ensures var before := if row.Some? then CellFrom(Cell(row.value, c)) else None;
            CellFrom(Cell(Upsert(row, c, ToInt64(v)), c)) == Advance(before, v)
            <==> row.None? || (v < TWO63 <==> (before.Some? ==> before.value < TWO63))
  {
  }

  function RowOf(t: Tables, a: Address): Option<CursorRow> {
    if a in t.cursors then Some(t.cursors[a]) else None
  }

  /** Only this cursor has moved, and below 2^63 it has advanced. */
  ghost predicate Moved(r: Records, s: Records, c: Column, v: nat) {
    var before := if c.DepositBlock? then r.cursor else r.floor;
    && s == (if c.DepositBlock? then r.(cursor := s.cursor) else r.(floor := s.floor))
    && (v < TWO63 && (before.Some? ==> before.value < TWO63) ==>
          s == if c.DepositBlock? then PutCursor(r, v) else PutFloor(r, v))
  }

  lemma MoveCell(t: Tables, a: Address, c: Column, v: Uint64, u: Tables)
    requires u == t.(cursors := t.cursors[a := Upsert(RowOf(t, a), c, ToInt64(v))])
    ensures Sound(t) ==> Sound(u)
    ensures Moved(View(t, a), View(u, a), c, v)
    ensures forall b :: b != a ==> View(u, b) == View(t, b)
  {
    AdvanceExactly(RowOf(t, a), c, v);
    CursorsKeepSound(t, u);
    hide Project, Sound;
  }

  lemma CursorsKeepSound(t: Tables, u: Tables)
    requires u == t.(cursors := u.cursors)
    ensures Sound(t) ==> Sound(u)
  {
  }

  /** The two cells of a row advance independently, and unset stays distinct from
      zero. */
  lemma ColumnsAreIndependent(row: Option<CursorRow>, c: Column, d: Column, v: Uint64)
    requires c != d
    ensures Cell(Upsert(row, c, ToInt64(v)), d) == if row.Some? then Cell(row.value, d) else None
  {
  }

  // ----- one write, seen by every account -----

  lemma PutRow(t: Tables, a: Address, i: Intent, row: IntentRow, u: Tables)
    requires Sound(t) && InWidth(i) && i.Valid() && (a, i.id) !in t.intents && !Taken(t.intents, a, ToInt64(i.nonce))
    requires row == IntentRow(i.kind, i.to, i.amount, i.delta, ToInt64(i.nonce), i.calldata, ToInt64(i.fromBlock))
    requires u == t.(intents := t.intents[(a, i.id) := row])
    ensures Sound(u)
    ensures forall b :: View(u, b) == if b == a then PutIntent(View(t, b), i) else View(t, b)
  {
    RowKeepsSound(t, a, i, row, u);
    hide Project, Sound;
    TakenIs(t, a, i.nonce);
    ProjectAt(t.intents, a, IntentFrom);
    forall b ensures View(u, b) == if b == a then PutIntent(View(t, b), i) else View(t, b) {
      ProjectPut(t.intents, a, i.id, row, IntentFrom, b);
    }
  }

  lemma RowKeepsSound(t: Tables, a: Address, i: Intent, row: IntentRow, u: Tables)
    requires Sound(t) && InWidth(i) && i.Valid() && (a, i.id) !in t.intents && !Taken(t.intents, a, ToInt64(i.nonce))
    requires row == IntentRow(i.kind, i.to, i.amount, i.delta, ToInt64(i.nonce), i.calldata, ToInt64(i.fromBlock))
    requires u == t.(intents := t.intents[(a, i.id) := row])
    ensures Sound(u)
  {
  }

  /** The order of stored nonces. */
  function Signed(nonce: nat): int {
    if nonce < TWO63 then nonce else nonce - TWO64
  }

  /** That is the order of the signed column itself. */
  lemma StoredOrder(t: Tables, a: Address, out: seq<Intent>)
    requires Lists(PendingRows(View(t, a)), Signed, out)
    ensures forall k :: 0 <= k < |out| ==> (a, out[k].id) in t.intents
    ensures forall j, k :: 0 <= j < k < |out| ==> t.intents[(a, out[j].id)].nonce < t.intents[(a, out[k].id)].nonce
  {
    hide Project;
    ProjectAt(t.intents, a, IntentFrom);
    forall k | 0 <= k < |out|
      ensures (a, out[k].id) in t.intents && Signed(out[k].nonce) == t.intents[(a, out[k].id)].nonce
    {
      assert out[k] == View(t, a).intents[out[k].id];
    }
  }

  lemma PendingRowsAre(t: Tables, a: Address, rows: map<ID, Intent>)
    requires rows == Project(t.intents - t.facts.Keys, a, IntentFrom)
    ensures rows == PendingRows(View(t, a))
  {
    hide Project;
    ProjectAt(t.intents, a, IntentFrom);
    ProjectAt(t.facts, a, FactFrom);
    ProjectAt(t.intents - t.facts.Keys, a, IntentFrom);
  }

  /** Stored nonces are distinct words, so their signed order has no ties. */
  lemma RowsOrdered(t: Tables, a: Address)
    requires Sound(t)
    ensures var rows := PendingRows(View(t, a));
            && (forall id :: id in rows ==> rows[id].id == id)
            && (forall x, y :: x in rows && y in rows && x != y ==> Signed(rows[x].nonce) != Signed(rows[y].nonce))
  {
    ViewIsKeyed(t, a);
    hide Sound, Project;
    ProjectAt(t.intents, a, IntentFrom);
    forall id | id in View(t, a).intents ensures View(t, a).intents[id].nonce < TWO64 {}
  }

  lemma SignedIsPlain(rows: map<ID, Intent>, out: seq<Intent>)
    requires Lists(rows, Signed, out) && forall id :: id in rows ==> rows[id].nonce < TWO63
    ensures Lists(rows, Plain, out)
  {
  }

  lemma AppendRow(t: Tables, a: Address, id: ID, s: Submission, row: SubmissionRow, u: Tables)
    requires s.gas < TWO64 && row == SubmissionRow(s.txHash, ToInt64(s.gas), s.tip, s.feeCap)
    requires var before := Attempts(t, a, id);
             u == t.(submissions := t.submissions[(a, id, |before|) := row],
                     attempts := t.attempts[(a, id) := before + [row]])
    ensures Numbered(t) ==> Numbered(u)
    ensures forall b :: View(u, b) == if b == a then AppendSubmission(View(t, b), id, s) else View(t, b)
  {
    AppendedView(t, a, id, s, row, u);
    if Numbered(t) { AppendedNumbers(t, a, id, row, u); }
  }

  lemma AppendedNumbers(t: Tables, a: Address, id: ID, row: SubmissionRow, u: Tables)
    requires Numbered(t)
    requires var before := Attempts(t, a, id);
             u == t.(submissions := t.submissions[(a, id, |before|) := row],
                     attempts := t.attempts[(a, id) := before + [row]])
    ensures Numbered(u)
  {
    forall b: Address, x: ID
      ensures Attempts(u, b, x) == if (b, x) == (a, id) then Attempts(t, a, id) + [row] else Attempts(t, b, x)
    {
    }
    forall b: Address, x: ID, n: int | 0 <= n < |Attempts(u, b, x)| ensures (b, x, n) in u.submissions {
      if (b, x, n) != (a, id, |Attempts(t, a, id)|) { assert (b, x, n) in t.submissions; }
    }
  }

  lemma AppendedView(t: Tables, a: Address, id: ID, s: Submission, row: SubmissionRow, u: Tables)
    requires s.gas < TWO64 && row == SubmissionRow(s.txHash, ToInt64(s.gas), s.tip, s.feeCap)
    requires u == t.(submissions := u.submissions, attempts := t.attempts[(a, id) := Attempts(t, a, id) + [row]])
    ensures forall b :: View(u, b) == if b == a then AppendSubmission(View(t, b), id, s) else View(t, b)
  {
    hide Project, AttemptsFrom;
    var rows := Attempts(t, a, id) + [row];
    ProjectAt(t.attempts, a, AttemptsFrom);
    assert AttemptsFrom(id, rows) == Subs(View(t, a), id) + [s];
    forall b ensures View(u, b) == if b == a then AppendSubmission(View(t, b), id, s) else View(t, b) {
      ProjectPut(t.attempts, a, id, rows, AttemptsFrom, b);
    }
  }

  lemma PutFactRow(t: Tables, a: Address, id: ID, f: Fact, u: Tables)
    requires f.block < TWO64
    requires u == if (a, id) in t.facts then t
                  else t.(facts := t.facts[(a, id) := FactRow(f.txHash, ToInt64(f.block), if f.executed then 1 else 0)])
    ensures Sound(t) ==> Sound(u)
    ensures forall b :: View(u, b) == if b == a then PutFact(View(t, b), id, f) else View(t, b)
  {
    hide Project;
    ProjectAt(t.facts, a, FactFrom);
    forall b ensures View(u, b) == if b == a then PutFact(View(t, b), id, f) else View(t, b) {
      ProjectPut(t.facts, a, id, FactRow(f.txHash, ToInt64(f.block), if f.executed then 1 else 0), FactFrom, b);
    }
  }

  lemma PutDepositRow(t: Tables, a: Address, k: LogKey, d: Deposit, u: Tables)
    requires d.block < TWO64
    requires u == if (a, k) in t.deposits then t
                  else t.(deposits := t.deposits[(a, k) := DepositRow(d.from, d.amount, ToInt64(d.block))])
    ensures Sound(t) ==> Sound(u)
    ensures forall b :: View(u, b) == if b == a then PutDeposit(View(t, b), k, d) else View(t, b)
  {
    hide Project;
    ProjectAt(t.deposits, a, DepositFrom);
    forall b ensures View(u, b) == if b == a then PutDeposit(View(t, b), k, d) else View(t, b) {
      ProjectPut(t.deposits, a, k, DepositRow(d.from, d.amount, ToInt64(d.block)), DepositFrom, b);
    }
  }

  /** Words as the source's types have them, and cursor values below 2^63. */
  predicate InRange(c: Call) {
    match c
    case CallPutIntent(i) => InWidth(i)
    case CallAppend(_, s) => s.gas < TWO64
    case CallPutFact(_, f) => f.block < TWO64
    case CallPutDeposit(_, d) => d.block < TWO64
    case CallPutCursor(block) => block < TWO63
    case CallPutFloor(nonce) => nonce < TWO63
  }

  predicate Low(r: Records) {
    (r.cursor.Some? ==> r.cursor.value < TWO63) && (r.floor.Some? ==> r.floor.value < TWO63)
  }

  function CallsBy(a: Address, calls: seq<(Address, Call)>): seq<Call> {
    if calls == [] then []
    else if calls[0].0 == a then [calls[0].1] + CallsBy(a, calls[1..])
    else CallsBy(a, calls[1..])
  }

  lemma OwnCallFirst(r: Records, a: Address, calls: seq<(Address, Call)>)
    requires calls != []
    ensures DoAll(r, CallsBy(a, calls))
            == DoAll(if calls[0].0 == a then Do(r, calls[0].1) else r, CallsBy(a, calls[1..]))
  {
    if calls[0].0 == a {
      assert CallsBy(a, calls)[1..] == CallsBy(a, calls[1..]);
    }
  }

  lemma NoRows(t: Tables)
    requires t == Tables(map[], map[], map[], map[], map[], map[])
    ensures Sound(t) && forall a :: View(t, a) == EMPTY
  {
  }

  class Store {
    var intents: map<(Address, ID), IntentRow>
    var submissions: map<(Address, ID, int), SubmissionRow>
    ghost var attempts: map<(Address, ID), seq<SubmissionRow>>
    var facts: map<(Address, ID), FactRow>
    var deposits: map<(Address, LogKey), DepositRow>
    var cursors: map<Address, CursorRow>
    var domain: Option<string>

    ghost function Db(): Tables
      reads this
    {
      Tables(intents, submissions, attempts, facts, deposits, cursors)
    }

    ghost predicate Valid()
      reads this
    {
      Sound(Db())
    }

    ghost function Of(a: Address): Records
      requires Valid()
      reads this
    {
      View(Db(), a)
    }

    /** A new file serves no domain and holds nothing for anyone. */
    constructor ()
      ensures Valid() && domain.None? && forall a :: Of(a) == EMPTY
    {
      intents, submissions, attempts, facts, deposits, cursors, domain :=
        map[], map[], map[], map[], map[], map[], None;
      new;
      hide Sound, View;
      NoRows(Db());
    }

    /** The first key bound stays bound, and is the only one accepted. */
    method BindDomain(key: string) returns (r: Result<()>)
      modifies this`domain
      ensures domain == if old(domain).None? then Some(key) else old(domain)
      ensures r == if old(domain).None? || old(domain).value == key then Ok(()) else Err(WrongDomain)
    {
      if domain.None? { domain := Some(key); }
      return if domain.value == key then Ok(()) else Err(WrongDomain);
    }

    /** INSERT OR IGNORE: a row whose identifier or nonce is taken is not written. */
    method InsertIntent(account: Address, i: Intent)
      requires Valid() && InWidth(i) && i.Valid()
      modifies this`intents
      ensures Valid() && Of(account) == Spec.PutIntent(old(Of(account)), i)
      ensures forall b :: b != account ==> Of(b) == old(Of(b))
    {
      hide Sound, Project;
      TakenIs(Db(), account, i.nonce);
      ProjectAt(intents, account, IntentFrom);
      if (account, i.id) in intents { return; }
      var holder := FindNonce(account, ToInt64(i.nonce));
      if holder.Some? { return; }
      ghost var t := Db();
      var row := IntentRow(i.kind, i.to, i.amount, i.delta, ToInt64(i.nonce), i.calldata, ToInt64(i.fromBlock));
      intents := intents[(account, i.id) := row];
      PutRow(t, account, i, row, Db());
    }

    /** The row that holds a nonce, if one does. */
    method FindNonce(account: Address, nonce: Int64) returns (r: Option<ID>)
      ensures r.None? <==> !Taken(intents, account, nonce)
      ensures r.Some? ==> (account, r.value) in intents && intents[(account, r.value)].nonce == nonce
    {
      var left := intents.Keys;
      while left != {}
        invariant left <= intents.Keys
        invariant forall k :: k in intents && k !in left ==> !(k.0 == account && intents[k].nonce == nonce)
        decreases left
      {
        var k :| k in left;
        left := left - {k};
        if k.0 == account && intents[k].nonce == nonce { return Some(k.1); }
      }
      return None;
    }

    /** It succeeds exactly when the abstract store admits the intent, and otherwise
        changes nothing. */
    method PutIntent(account: Address, i: Intent) returns (r: Result<()>)
      requires Valid() && InWidth(i)
      modifies this`intents
      ensures Valid() && Of(account) == Spec.PutIntent(old(Of(account)), i)
      ensures forall b :: b != account ==> Of(b) == old(Of(b))
      ensures r.Ok? <==> Admits(old(Of(account)), i)
      ensures r.Err? ==> Of(account) == old(Of(account)) && r.error == if i.Valid() then IntentConflict else BadInput
    {
      hide Sound, Project;
      if !i.Valid() { return Err(BadInput); }
      InsertIntent(account, i);
      var recorded := GetIntent(account, i.id);
      if recorded.None? { return Err(IntentConflict); }
      if !recorded.value.SameTerms(i) { return Err(IntentConflict); }
      return Ok(());
    }

    method GetIntent(account: Address, id: ID) returns (r: Option<Intent>)
      requires Valid()
      ensures r == if id in Of(account).intents then Some(Of(account).intents[id]) else None
    {
      if (account, id) !in intents { return None; }
      assert id in Of(account).intents;
      return Some(IntentFrom(id, intents[(account, id)]));
    }

    method IntentByNonce(account: Address, nonce: Uint64) returns (r: Option<Intent>)
      requires Valid()
      ensures r.None? <==> !NonceTaken(Of(account), nonce)
      ensures r.Some? ==> r.value.nonce == nonce && r.value.id in Of(account).intents
                          && Of(account).intents[r.value.id] == r.value
    {
      TakenIs(Db(), account, nonce);
      var id := FindNonce(account, ToInt64(nonce));
      if id.None? { return None; }
      return Some(IntentFrom(id.value, intents[(account, id.value)]));
    }

    /** Intents with no fact, ordered by the stored nonce. */
    method Pending(account: Address) returns (out: seq<Intent>)
      requires Valid()
      ensures Lists(PendingRows(Of(account)), Signed, out)
      ensures forall k :: 0 <= k < |out| ==> (account, out[k].id) in intents
      ensures forall j, k :: 0 <= j < k < |out| ==>
                intents[(account, out[j].id)].nonce < intents[(account, out[k].id)].nonce
      ensures (forall id :: id in PendingRows(Of(account)) ==> Of(account).intents[id].nonce < TWO63)
              ==> ListsPending(Of(account), out)
    {
      var rows := map k | k in intents && k.0 == account && k !in facts :: k.1 := IntentFrom(k.1, intents[k]);
      assert rows == Project(intents - facts.Keys, account, IntentFrom);
      hide Sound, Project;
      PendingRowsAre(Db(), account, rows);
      RowsOrdered(Db(), account);
      out := InOrder(rows, Signed);
      StoredOrder(Db(), account, out);
      if forall id :: id in rows ==> rows[id].nonce < TWO63 { SignedIsPlain(rows, out); }
    }

    /** The next number after the greatest, or zero. */
    method NextSeq(account: Address, id: ID) returns (next: int)
      requires Valid()
      ensures next == |Attempts(Db(), account, id)|
    {
      var max := -1;
      var left := submissions.Keys;
      while left != {}
        invariant left <= submissions.Keys
        invariant -1 <= max < |Attempts(Db(), account, id)|
        invariant forall k :: k in submissions && k !in left && k.0 == account && k.1 == id ==> k.2 <= max
        decreases left
      {
        var k :| k in left;
        left := left - {k};
        if k.0 == account && k.1 == id && k.2 > max { max := k.2; }
      }
      next := max + 1;
      assert next < |Attempts(Db(), account, id)| ==> (account, id, next) in submissions;
    }

    method AppendSubmission(account: Address, id: ID, s: Submission)
      requires Valid() && s.gas < TWO64
      modifies this`submissions, this`attempts
      ensures Valid() && Of(account) == Spec.AppendSubmission(old(Of(account)), id, s)
      ensures forall b :: b != account ==> Of(b) == old(Of(b))
    {
      var next := NextSeq(account, id);
      hide NoncesUnique, Project;
      ghost var t := Db();
      var row := SubmissionRow(s.txHash, ToInt64(s.gas), s.tip, s.feeCap);
      submissions := submissions[(account, id, next) := row];
      attempts := attempts[(account, id) := Attempts(t, account, id) + [row]];
      AppendRow(t, account, id, s, row, Db());
    }

    /** The attempts in the order they were made. */
    method Submissions(account: Address, id: ID) returns (out: seq<Submission>)
      requires Valid()
      ensures out == Subs(Of(account), id)
    {
      out := [];
      ghost var rows := Attempts(Db(), account, id);
      while (account, id, |out|) in submissions
        invariant |out| <= |rows|
        invariant out == AttemptsFrom(id, rows[..|out|])
        decreases |rows| - |out|
      {
        out := out + [SubmissionFrom(submissions[(account, id, |out|)])];
      }
      assert |out| < |rows| ==> (account, id, |out|) in submissions;
      assert rows[..|out|] == rows;
    }

    method PutFact(account: Address, id: ID, f: Fact)
      requires Valid() && f.block < TWO64
      modifies this`facts
      ensures Valid() && Of(account) == Spec.PutFact(old(Of(account)), id, f)
      ensures forall b :: b != account ==> Of(b) == old(Of(b))
    {
      ghost var t := Db();
      if (account, id) !in facts {
        facts := facts[(account, id) := FactRow(f.txHash, ToInt64(f.block), if f.executed then 1 else 0)];
      }
      PutFactRow(t, account, id, f, Db());
    }

    method GetFact(account: Address, id: ID) returns (r: Option<Fact>)
      requires Valid()
      ensures r == if id in Of(account).facts then Some(Of(account).facts[id]) else None
    {
      if (account, id) !in facts { return None; }
      assert id in Of(account).facts;
      return Some(FactFrom(id, facts[(account, id)]));
    }

    method PutDeposit(account: Address, k: LogKey, d: Deposit)
      requires Valid() && d.block < TWO64
      modifies this`deposits
      ensures Valid() && Of(account) == Spec.PutDeposit(old(Of(account)), k, d)
      ensures forall b :: b != account ==> Of(b) == old(Of(b))
    {
      ghost var t := Db();
      if (account, k) !in deposits {
        deposits := deposits[(account, k) := DepositRow(d.from, d.amount, ToInt64(d.block))];
      }
      PutDepositRow(t, account, k, d, Db());
    }

    method ReadCursor(account: Address, c: Column) returns (r: Option<nat>)
      requires Valid()
      ensures r == if c.DepositBlock? then Of(account).cursor else Of(account).floor
    {
      if account !in cursors { return None; }
      var cell := Cell(cursors[account], c);
      if cell.None? { return None; }
      return Some(ToUint64(cell.value));
    }

    /** Moves one cursor forward, as far as signed comparison allows, and nothing
        else. */
    method AdvanceCursor(account: Address, c: Column, v: Uint64)
      requires Valid()
      modifies this`cursors
      ensures Valid() && Moved(old(Of(account)), Of(account), c, v)
      ensures forall b :: b != account ==> Of(b) == old(Of(b))
    {
      hide Sound, View, Moved;
      ghost var t := Db();
      var value := ToInt64(v);
      if account !in cursors {
        cursors := cursors[account := SetCell(CursorRow(None, None), c, value)];
      } else {
        var held := if Cell(cursors[account], c).Some? then Cell(cursors[account], c).value else 0;
        cursors := cursors[account := SetCell(cursors[account], c, if held >= value then held else value)];
      }
      MoveCell(t, account, c, v, Db());
    }

    /** One call of the store interface that writes. */
    method Perform(account: Address, c: Call)
      requires Valid() && InRange(c) && Low(Of(account))
      modifies this
      ensures Valid() && Of(account) == Do(old(Of(account)), c) && Low(Of(account))
      ensures forall b :: b != account ==> Of(b) == old(Of(b))
    {
      hide Sound, View;
      match c {
        case CallPutIntent(i) => var _ := PutIntent(account, i);
        case CallAppend(id, s) => AppendSubmission(account, id, s);
        case CallPutFact(id, f) => PutFact(account, id, f);
        case CallPutDeposit(k, d) => PutDeposit(account, k, d);
        case CallPutCursor(block) => AdvanceCursor(account, DepositBlock, block);
        case CallPutFloor(nonce) => AdvanceCursor(account, NonceFloor, nonce);
      }
    }

    /** For every sequence of calls, by any accounts in any order, each account sees
        the abstract store that its own calls alone would have made. */
    method Replay(calls: seq<(Address, Call)>)
      requires Valid() && forall a :: Low(Of(a))
      requires forall n :: 0 <= n < |calls| ==> InRange(calls[n].1)
      modifies this
      ensures Valid() && forall a :: Of(a) == DoAll(old(Of(a)), CallsBy(a, calls))
    {
      hide Sound, View, InRange, Low, Do;
      var n := 0;
      while n < |calls|
        invariant 0 <= n <= |calls|
        invariant Valid() && forall a :: Low(Of(a))
        invariant forall a :: DoAll(Of(a), CallsBy(a, calls[n..])) == DoAll(old(Of(a)), CallsBy(a, calls))
      {
        assert calls[n..][0] == calls[n] && calls[n..][1..] == calls[n + 1..];
        forall a { OwnCallFirst(Of(a), a, calls[n..]); }
        Perform(calls[n].0, calls[n].1);
        n := n + 1;
      }
    }
  }
}
