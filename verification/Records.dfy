/** One account's durable records as a value, and the six writes that change it
    (go/rail/store.go). */
module Records {
  import opened Types

  datatype Records = Records(
    intents: map<ID, Intent>,
    subs: map<ID, seq<Submission>>,
    facts: map<ID, Fact>,
    deposits: map<LogKey, Deposit>,
    cursor: Option<nat>,
    floor: Option<nat>)

  const EMPTY := Records(map[], map[], map[], map[], None, None)

  function Subs(r: Records, id: ID): seq<Submission> {
    if id in r.subs then r.subs[id] else []
  }

  predicate NonceTaken(r: Records, nonce: nat) {
    exists id :: id in r.intents && r.intents[id].nonce == nonce
  }

  /** A well formed intent is admitted when it is new on a free nonce, or already
      recorded with the same terms. */
  predicate Admits(r: Records, i: Intent) {
    i.Valid() && (if i.id in r.intents then r.intents[i.id].SameTerms(i) else !NonceTaken(r, i.nonce))
  }

  function PutIntent(r: Records, i: Intent): Records {
    if i.Valid() && i.id !in r.intents && !NonceTaken(r, i.nonce) then r.(intents := r.intents[i.id := i]) else r
  }

  function AppendSubmission(r: Records, id: ID, s: Submission): Records {
    r.(subs := r.subs[id := Subs(r, id) + [s]])
  }

  function PutFact(r: Records, id: ID, f: Fact): Records {
    if id in r.facts then r else r.(facts := r.facts[id := f])
  }

  function PutDeposit(r: Records, k: LogKey, d: Deposit): Records {
    if k in r.deposits then r else r.(deposits := r.deposits[k := d])
  }

  function Advance(cell: Option<nat>, v: nat): Option<nat> {
    Some(if cell.Some? && cell.value > v then cell.value else v)
  }

  function PutCursor(r: Records, block: nat): Records {
    r.(cursor := Advance(r.cursor, block))
  }

  function PutFloor(r: Records, nonce: nat): Records {
    r.(floor := Advance(r.floor, nonce))
  }

  /** The unresolved intents. */
  function PendingIds(r: Records): set<ID> {
    r.intents.Keys - r.facts.Keys
  }

  predicate HasId(out: seq<Intent>, id: ID) {
    exists k :: 0 <= k < |out| && out[k].id == id
  }

  /** Every one of these intents once, in the order of a key of their nonces. */
  ghost predicate Lists(rows: map<ID, Intent>, key: nat -> int, out: seq<Intent>) {
    && (forall k :: 0 <= k < |out| ==> out[k].id in rows && rows[out[k].id] == out[k])
    && (forall id :: id in rows ==> HasId(out, id))
    && (forall j, k :: 0 <= j < k < |out| ==> key(out[j].nonce) < key(out[k].nonce))
  }

  function Plain(nonce: nat): int { nonce }

  function PendingRows(r: Records): map<ID, Intent> {
    map id | id in PendingIds(r) :: r.intents[id]
  }

  /** The pending intents as the store lists them, oldest nonce first. */
  ghost predicate ListsPending(r: Records, out: seq<Intent>) {
    Lists(PendingRows(r), Plain, out)
  }

  /** Sorts by taking, each time, the intent with the least key left. */
  method InOrder(rows: map<ID, Intent>, key: nat -> int) returns (out: seq<Intent>)
    requires forall id :: id in rows ==> rows[id].id == id
    requires forall a, b :: a in rows && b in rows && a != b ==> key(rows[a].nonce) != key(rows[b].nonce)
    ensures Lists(rows, key, out)
  {
    var left := rows.Keys;
    out := [];
    while left != {}
      invariant left <= rows.Keys
      invariant forall k :: 0 <= k < |out| ==> out[k].id in rows.Keys - left && rows[out[k].id] == out[k]
      invariant forall id :: id in rows.Keys - left ==> HasId(out, id)
      invariant forall j, k :: 0 <= j < k < |out| ==> key(out[j].nonce) < key(out[k].nonce)
      invariant forall k, id :: 0 <= k < |out| && id in left ==> key(out[k].nonce) < key(rows[id].nonce)
      decreases left
    {
      var first := Least(rows, key, left);
      ghost var before, waiting := out, left;
      out := out + [rows[first]];
      left := left - {first};
      assert out[|before|].id == first;
      forall id | id in rows.Keys - left ensures HasId(out, id) {
        if id != first {
          assert id in rows.Keys - waiting;
          HasIdGrows(before, rows[first], id);
        }
      }
    }
    assert rows.Keys - left == rows.Keys;
  }

  lemma HasIdGrows(out: seq<Intent>, i: Intent, id: ID)
    requires HasId(out, id)
    ensures HasId(out + [i], id)
  {
    var k :| 0 <= k < |out| && out[k].id == id;
    assert (out + [i])[k].id == id;
  }

  method Least(rows: map<ID, Intent>, key: nat -> int, ids: set<ID>) returns (first: ID)
    requires ids != {} && ids <= rows.Keys
    requires forall a, b :: a in rows && b in rows && a != b ==> key(rows[a].nonce) != key(rows[b].nonce)
    ensures first in ids
    ensures forall id :: id in ids && id != first ==> key(rows[first].nonce) < key(rows[id].nonce)
  {
    first :| first in ids;
    var left := ids - {first};
    while left != {}
      invariant first in ids && left <= ids - {first}
      invariant forall id :: id in ids - left && id != first ==> key(rows[first].nonce) < key(rows[id].nonce)
      decreases left
    {
      var id :| id in left;
      left := left - {id};
      if key(rows[id].nonce) < key(rows[first].nonce) {
        first := id;
      }
    }
  }

  /** Identifiers and nonces are each unique, which the store's two keys enforce. */
  ghost predicate Keyed(r: Records) {
    && (forall id :: id in r.intents ==> r.intents[id].id == id && r.intents[id].Valid())
    && (forall a, b :: a in r.intents && b in r.intents && r.intents[a].nonce == r.intents[b].nonce ==> a == b)
  }

  predicate Advances(before: Option<nat>, after: Option<nat>) {
    before.Some? ==> after.Some? && before.value <= after.value
  }

  /** Nothing recorded is ever lost or changed. */
  ghost predicate Grows(r: Records, s: Records) {
    && (forall id :: id in r.intents ==> id in s.intents && s.intents[id] == r.intents[id])
    && (forall id :: id in r.subs ==> id in s.subs && r.subs[id] <= s.subs[id])
    && (forall id :: id in r.facts ==> id in s.facts && s.facts[id] == r.facts[id])
    && (forall k :: k in r.deposits ==> k in s.deposits && s.deposits[k] == r.deposits[k])
    && Advances(r.cursor, s.cursor) && Advances(r.floor, s.floor)
  }

  datatype Call =
    | CallPutIntent(i: Intent)
    | CallAppend(id: ID, s: Submission)
    | CallPutFact(factId: ID, f: Fact)
    | CallPutDeposit(k: LogKey, d: Deposit)
    | CallPutCursor(block: nat)
    | CallPutFloor(nonce: nat)

  function Do(r: Records, c: Call): Records {
    match c
    case CallPutIntent(i) => PutIntent(r, i)
    case CallAppend(id, s) => AppendSubmission(r, id, s)
    case CallPutFact(id, f) => PutFact(r, id, f)
    case CallPutDeposit(k, d) => PutDeposit(r, k, d)
    case CallPutCursor(b) => PutCursor(r, b)
    case CallPutFloor(n) => PutFloor(r, n)
  }

  function DoAll(r: Records, calls: seq<Call>): Records
    decreases |calls|
  {
    if calls == [] then r else DoAll(Do(r, calls[0]), calls[1..])
  }

  lemma DoGrows(r: Records, c: Call)
    ensures Grows(r, Do(r, c))
  {
  }

  lemma StaysKeyed(r: Records, c: Call)
    requires Keyed(r)
    ensures Keyed(Do(r, c))
  {
    if c.CallPutIntent? {
      var s := Do(r, c);
      forall a, b | a in s.intents && b in s.intents && s.intents[a].nonce == s.intents[b].nonce
        ensures a == b
      {
      }
    }
  }

  /** Over every sequence of calls nothing recorded is lost or changed, identifiers
      and nonces stay unique, and an intent is admitted exactly as its terms and
      nonce allow. */
  lemma {:induction false} CallsOnlyAdd(r: Records, calls: seq<Call>, i: Intent)
    requires Keyed(r)
    ensures var s := DoAll(r, calls);
            && Grows(r, s) && Keyed(s)
            && (Admits(s, i) <==>
                  && i.to != ZERO_ADDRESS && 0 < i.amount < UINT256_LIMIT && (i.kind.Refill? ==> 0 < i.delta)
                  && (if i.id in s.intents
                      then var j := s.intents[i.id];
                           j.kind == i.kind && j.to == i.to && j.amount == i.amount && j.nonce == i.nonce
                      else forall id :: id in s.intents ==> s.intents[id].nonce != i.nonce))
            && (i.id in s.intents || !Admits(s, i) ==> PutIntent(s, i) == s)
            && (i.id !in s.intents && Admits(s, i) ==> PutIntent(s, i) == s.(intents := s.intents[i.id := i]))
    decreases |calls|
  {
    if calls != [] {
      DoGrows(r, calls[0]);
      StaysKeyed(r, calls[0]);
      CallsOnlyAdd(Do(r, calls[0]), calls[1..], i);
    }
  }
}
