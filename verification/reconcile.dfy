/**
 * Reconciliation (`loadSalaryData`): read the id index, read every record slot
 * it names, keep the entries that read and decode, and order them newest first
 * with a stable sort.
 */
module Reconcile {
  import opened Wrappers
  import opened Records
  import opened Ledger

  /** The one-character strings `for...of` yields from a string, in order. */
  function Chars(t: string): (r: seq<string>)
    ensures |r| == |t| && forall i :: 0 <= i < |t| ==> r[i] == [t[i]]
  {
    seq(|t|, i requires 0 <= i < |t| => [t[i]])
  }

  /**
   * The ids `for (const key of keys)` visits for the index bytes `b`: none for
   * empty or unparsable bytes, the characters of a string, and `None` when the
   * parsed value cannot be iterated and the loop header throws.
   */
  function IndexIds(c: Codec, b: Bytes): (r: Option<seq<string>>)
    ensures |b| == 0 ==> r == Some([])
    ensures forall ids :: Sound(c) && b == c.encodeIndex(ids) ==> r == Some(ids)
  {
    if |b| == 0 then Some([])
    else match c.decodeIndex(b)
      case None => Some([])
      case Some(IdList(ids)) => Some(ids)
      case Some(Text(t)) => Some(Chars(t))
      case Some(NotIterable) => None
  }

  /** The ids the load visits; `None` when `getData` or the loop header throws. */
  function ReadIndex(c: Codec, l: LedgerState): Option<seq<string>> {
    match Read(l, IndexKey)
    case None => None
    case Some(b) => IndexIds(c, b)
  }

  /**
   * One iteration of the loop over ids: the record of `id`, or `None` when the
   * read throws, the slot is empty or the document does not parse.
   */
  function Entry(c: Codec, l: LedgerState, id: string): (e: Option<SalaryData>)
    ensures e.Some? ==> e.value.id == id
  {
    match Read(l, RecordKey(id))
    case None => None
    case Some(b) =>
      if |b| == 0 then None
      else match c.decodeRecord(b)
        case None => None
        case Some(d) => Some(FromDoc(id, d))
  }

  /**
   * The list pushed by the loop over `ids`, in index order: at most one record
   * per id, each carrying an id of the index.
   */
  function Collect(c: Codec, l: LedgerState, ids: seq<string>): (r: seq<SalaryData>)
    ensures |r| <= |ids|
    ensures forall x :: x in r ==> x.id in ids
    decreases |ids|
  {
    if ids == [] then []
    else
      var init := Collect(c, l, ids[..|ids| - 1]);
      assert forall y :: y in ids[..|ids| - 1] ==> y in ids;
      match Entry(c, l, ids[|ids| - 1])
      case None => init
      case Some(r) => init + [r]
  }

  /** Ordered by `timestamp`, newest first. */
  predicate NewestFirst(s: seq<SalaryData>) {
    forall i, j :: 0 <= i < j < |s| ==> s[i].timestamp >= s[j].timestamp
  }

  /** The records of `s` with timestamp `k`, in their order in `s`. */
  function WithTimestamp(s: seq<SalaryData>, k: int): seq<SalaryData> {
    if s == [] then []
    else (if s[0].timestamp == k then [s[0]] else []) + WithTimestamp(s[1..], k)
  }

  /** Places `x`, which precedes every element of `t` in the input, after the strictly newer ones. */
  function Insert(x: SalaryData, t: seq<SalaryData>): seq<SalaryData> {
    if t == [] || x.timestamp >= t[0].timestamp then [x] + t
    else [t[0]] + Insert(x, t[1..])
  }

  /**
   * `list.sort((a, b) => b.timestamp - a.timestamp)`: the records of `s`, none
   * added or lost, newest first (stability is `SortIsStable`).
   */
  function SortNewestFirst(s: seq<SalaryData>): (r: seq<SalaryData>)
    ensures NewestFirst(r)
    ensures multiset(r) == multiset(s) && |r| == |s|
  {
    if s == [] then []
    else
      var rest := SortNewestFirst(s[1..]);
      InsertKeepsOrder(s[0], rest);
      InsertPermutation(s[0], rest);
      assert s == [s[0]] + s[1..];
      Insert(s[0], rest)
  }

  /**
   * The value `loadSalaryData` assigns to `salaryData`, or `None` when it
   * returns without assigning: no contract, contract unavailable, or reading
   * or iterating the index throws. What it assigns is the collected records,
   * newest first.
   */
  function Load(c: Codec, contract: Option<LedgerState>): (r: Option<seq<SalaryData>>)
    ensures r.None? <==> contract.None? || !contract.value.available || ReadIndex(c, contract.value).None?
    ensures r.Some? ==>
      && NewestFirst(r.value)
      && multiset(r.value) == multiset(Collect(c, contract.value, ReadIndex(c, contract.value).value))
  {
    match contract
    case None => None
    case Some(l) =>
      if !l.available then None
      else match ReadIndex(c, l)
        case None => None
        case Some(ids) => Some(SortNewestFirst(Collect(c, l, ids)))
  }

  // ---------------------------------------------------------------- collecting

  lemma {:induction false} CollectAppend(c: Codec, l: LedgerState, a: seq<string>, b: seq<string>)
    ensures Collect(c, l, a + b) == Collect(c, l, a) + Collect(c, l, b)
    decreases |b|
  {
    if b == [] {
      assert a + b == a;
    } else {
      var b' := b[..|b| - 1];
      assert (a + b)[..|a + b| - 1] == a + b';
      assert (a + b)[|a + b| - 1] == b[|b| - 1];
      CollectAppend(c, l, a, b');
    }
  }

  /** A record is loaded iff some id of the index yields it. */
  lemma {:induction false} CollectMembership(c: Codec, l: LedgerState, ids: seq<string>, r: SalaryData)
    ensures r in Collect(c, l, ids) <==> exists i :: 0 <= i < |ids| && Entry(c, l, ids[i]) == Some(r)
    decreases |ids|
  {
    if ids != [] {
      var init := ids[..|ids| - 1];
      CollectMembership(c, l, init, r);
      if r in Collect(c, l, ids) && r !in Collect(c, l, init) {
        assert Entry(c, l, ids[|ids| - 1]) == Some(r);
      }
      if exists i :: 0 <= i < |ids| && Entry(c, l, ids[i]) == Some(r) {
        var i :| 0 <= i < |ids| && Entry(c, l, ids[i]) == Some(r);
        if i < |ids| - 1 {
          assert init[i] == ids[i];
        }
      }
      forall i | 0 <= i < |init| && Entry(c, l, init[i]) == Some(r)
        ensures exists j :: 0 <= j < |ids| && Entry(c, l, ids[j]) == Some(r)
      {
        assert ids[i] == init[i];
      }
    }
  }

  /** Ids whose record slots read the same in two states collect to the same list. */
  lemma {:induction false} CollectUnaffected(c: Codec, l: LedgerState, l': LedgerState, ids: seq<string>)
    requires forall j :: j in ids ==> Read(l, RecordKey(j)) == Read(l', RecordKey(j))
    ensures Collect(c, l, ids) == Collect(c, l', ids)
    decreases |ids|
  {
    if ids != [] {
      var init := ids[..|ids| - 1];
      assert forall j :: j in init ==> j in ids;
      CollectUnaffected(c, l, l', init);
      assert Entry(c, l, ids[|ids| - 1]) == Entry(c, l', ids[|ids| - 1]);
    }
  }

  /** A failing id is skipped and the ids after it are still processed. */
  lemma CollectSkipsFailedEntry(c: Codec, l: LedgerState, before: seq<string>, id: string, after: seq<string>)
    requires Entry(c, l, id) == None
    ensures Collect(c, l, before + [id] + after) == Collect(c, l, before) + Collect(c, l, after)
  {
    CollectAppend(c, l, before + [id], after);
    assert (before + [id])[..|before + [id]| - 1] == before;
  }

  /** The records of `s` whose id is not `k`. */
  function WithoutId(s: seq<SalaryData>, k: string): seq<SalaryData> {
    if s == [] then []
    else WithoutId(s[..|s| - 1], k) + (if s[|s| - 1].id == k then [] else [s[|s| - 1]])
  }

  /** After one record slot is overwritten with bytes that do not decode, only that id's entry changes, to none. */
  lemma EntryAfterCorrupt(c: Codec, l: LedgerState, id: string, k: string, junk: Bytes)
    requires c.decodeRecord(junk) == None
    ensures Entry(c, l.(data := l.data[RecordKey(k) := junk]), id) == if id == k then None else Entry(c, l, id)
  {
    RecordKeyInjective(id, k);
  }

  /**
   * Overwriting one record slot with bytes that do not decode removes exactly
   * that record from the result and leaves every other record in place.
   */
  lemma {:induction false} CorruptOneRecord(c: Codec, l: LedgerState, ids: seq<string>, k: string, junk: Bytes)
    requires c.decodeRecord(junk) == None
    ensures Collect(c, l.(data := l.data[RecordKey(k) := junk]), ids) == WithoutId(Collect(c, l, ids), k)
    decreases |ids|
  {
    var l' := l.(data := l.data[RecordKey(k) := junk]);
    if ids != [] {
      var init, last := ids[..|ids| - 1], ids[|ids| - 1];
      CorruptOneRecord(c, l, init, k, junk);
      EntryAfterCorrupt(c, l, last, k, junk);
      var prev := Collect(c, l, init);
      match Entry(c, l, last)
      case None =>
        assert Collect(c, l, ids) == prev;
      case Some(r) =>
        assert Collect(c, l, ids) == prev + [r];
        assert (prev + [r])[..|prev + [r]| - 1] == prev;
    }
  }

  // ------------------------------------------------------------------- sorting

  lemma {:induction false} InsertPermutation(x: SalaryData, t: seq<SalaryData>)
    ensures multiset(Insert(x, t)) == multiset(t) + multiset{x}
    ensures |Insert(x, t)| == |t| + 1
    decreases |t|
  {
    if !(t == [] || x.timestamp >= t[0].timestamp) {
      InsertPermutation(x, t[1..]);
      assert t == [t[0]] + t[1..];
    }
  }

  /** A record no older than any record of a newest-first list can go in front of it. */
  lemma ConsNewestFirst(a: SalaryData, r: seq<SalaryData>)
    requires NewestFirst(r)
    requires forall j :: 0 <= j < |r| ==> a.timestamp >= r[j].timestamp
    ensures NewestFirst([a] + r)
  {
    var s := [a] + r;
    forall i, j | 0 <= i < j < |s| ensures s[i].timestamp >= s[j].timestamp {
      assert s[j] == r[j - 1];
      if i > 0 {
        assert s[i] == r[i - 1];
      }
    }
  }

  lemma {:induction false} InsertKeepsOrder(x: SalaryData, t: seq<SalaryData>)
    requires NewestFirst(t)
    ensures NewestFirst(Insert(x, t))
    decreases |t|
  {
    if t == [] || x.timestamp >= t[0].timestamp {
      forall j | 0 <= j < |t| ensures x.timestamp >= t[j].timestamp {
        assert t[0].timestamp >= t[j].timestamp || j == 0;
      }
      ConsNewestFirst(x, t);
    } else {
      var rest := Insert(x, t[1..]);
      assert NewestFirst(t[1..]);
      InsertKeepsOrder(x, t[1..]);
      InsertPermutation(x, t[1..]);
      forall j | 0 <= j < |rest| ensures t[0].timestamp >= rest[j].timestamp {
        assert rest[j] in multiset(rest);
        assert rest[j] == x || rest[j] in multiset(t[1..]);
        if rest[j] != x {
          var m :| 0 <= m < |t[1..]| && t[1..][m] == rest[j];
          assert t[m + 1] == rest[j];
        }
      }
      ConsNewestFirst(t[0], rest);
    }
  }

  /** `WithTimestamp` on a list with a given first record. */
  lemma WithTimestampCons(a: SalaryData, r: seq<SalaryData>, k: int)
    ensures WithTimestamp([a] + r, k) == (if a.timestamp == k then [a] else []) + WithTimestamp(r, k)
  {
    assert ([a] + r)[1..] == r;
  }

  lemma {:induction false} InsertStable(x: SalaryData, t: seq<SalaryData>, k: int)
    ensures WithTimestamp(Insert(x, t), k) == (if x.timestamp == k then [x] else []) + WithTimestamp(t, k)
    decreases |t|
  {
    if t == [] || x.timestamp >= t[0].timestamp {
      WithTimestampCons(x, t, k);
    } else {
      var rest := Insert(x, t[1..]);
      InsertStable(x, t[1..], k);
      WithTimestampCons(t[0], rest, k);
      assert t == [t[0]] + t[1..];
      WithTimestampCons(t[0], t[1..], k);
      if x.timestamp == k {
        assert t[0].timestamp != k;
        assert WithTimestamp(Insert(x, t), k) == [x] + WithTimestamp(t[1..], k);
      } else if t[0].timestamp == k {
        assert WithTimestamp(Insert(x, t), k) == [t[0]] + WithTimestamp(t[1..], k);
      }
    }
  }

  /** Stability: records with equal timestamps keep their index order. */
  lemma {:induction false} SortIsStable(s: seq<SalaryData>, k: int)
    ensures WithTimestamp(SortNewestFirst(s), k) == WithTimestamp(s, k)
    decreases |s|
  {
    if s != [] {
      SortIsStable(s[1..], k);
      InsertStable(s[0], SortNewestFirst(s[1..]), k);
    }
  }

  lemma {:induction false} WithTimestampNonEmpty(s: seq<SalaryData>, i: int)
    requires 0 <= i < |s|
    ensures WithTimestamp(s, s[i].timestamp) != []
    decreases |s|
  {
    if i > 0 {
      WithTimestampNonEmpty(s[1..], i - 1);
    }
  }

  lemma {:induction false} WithTimestampWitness(s: seq<SalaryData>, k: int)
    requires WithTimestamp(s, k) != []
    ensures exists i :: 0 <= i < |s| && s[i].timestamp == k
    decreases |s|
  {
    if s[0].timestamp != k {
      WithTimestampWitness(s[1..], k);
      var i :| 0 <= i < |s[1..]| && s[1..][i].timestamp == k;
      assert s[i + 1].timestamp == k;
    }
  }

  /** Two newest-first lists with the same per-timestamp subsequences start with the same record. */
  lemma HeadsAgree(t: seq<SalaryData>, u: seq<SalaryData>)
    requires t != [] && u != [] && NewestFirst(t) && NewestFirst(u)
    requires WithTimestamp(t, t[0].timestamp) == WithTimestamp(u, t[0].timestamp)
    requires WithTimestamp(t, u[0].timestamp) == WithTimestamp(u, u[0].timestamp)
    ensures t[0] == u[0]
  {
    var m := t[0].timestamp;
    WithTimestampNonEmpty(t, 0);
    WithTimestampWitness(u, m);
    var i :| 0 <= i < |u| && u[i].timestamp == m;
    assert u[0].timestamp >= m;
    WithTimestampNonEmpty(u, 0);
    WithTimestampWitness(t, u[0].timestamp);
    var j :| 0 <= j < |t| && t[j].timestamp == u[0].timestamp;
    assert m >= u[0].timestamp;
    assert WithTimestamp(t, m)[0] == t[0];
    assert WithTimestamp(u, m)[0] == u[0];
  }

  /** Dropping a shared first record keeps a timestamp's subsequences equal. */
  lemma TailGroupsAgree(t: seq<SalaryData>, u: seq<SalaryData>, k: int)
    requires t != [] && u != [] && t[0] == u[0]
    requires WithTimestamp(t, k) == WithTimestamp(u, k)
    ensures WithTimestamp(t[1..], k) == WithTimestamp(u[1..], k)
  {
    if k == t[0].timestamp {
      assert ([t[0]] + WithTimestamp(t[1..], k))[1..] == WithTimestamp(t[1..], k);
      assert ([u[0]] + WithTimestamp(u[1..], k))[1..] == WithTimestamp(u[1..], k);
    } else {
      assert [] + WithTimestamp(t[1..], k) == WithTimestamp(t[1..], k);
      assert [] + WithTimestamp(u[1..], k) == WithTimestamp(u[1..], k);
    }
  }

  /**
   * Newest-first order together with the per-timestamp order determines a
   * sequence: two lists that agree on both are equal.
   */
  lemma {:induction false} OrderAndGroupsDetermine(t: seq<SalaryData>, u: seq<SalaryData>)
    requires NewestFirst(t) && NewestFirst(u)
    requires forall k :: WithTimestamp(t, k) == WithTimestamp(u, k)
    ensures t == u
    decreases |t| + |u|
  {
    if t == [] && u != [] {
      WithTimestampNonEmpty(u, 0);
    } else if t != [] && u == [] {
      WithTimestampNonEmpty(t, 0);
    } else if t != [] {
      assert WithTimestamp(t, t[0].timestamp) == WithTimestamp(u, t[0].timestamp);
      assert WithTimestamp(t, u[0].timestamp) == WithTimestamp(u, u[0].timestamp);
      HeadsAgree(t, u);
      forall k ensures WithTimestamp(t[1..], k) == WithTimestamp(u[1..], k) {
        TailGroupsAgree(t, u, k);
      }
      assert NewestFirst(t[1..]) && NewestFirst(u[1..]);
      OrderAndGroupsDetermine(t[1..], u[1..]);
      assert t == [t[0]] + t[1..] && u == [u[0]] + u[1..];
    }
  }

  /**
   * The sort is the unique newest-first rearrangement that keeps equal
   * timestamps in input order: what ECMAScript's stable `sort` must produce.
   */
  lemma SortIsUnique(s: seq<SalaryData>, t: seq<SalaryData>)
    requires NewestFirst(t)
    requires forall k :: WithTimestamp(t, k) == WithTimestamp(s, k)
    ensures t == SortNewestFirst(s)
  {
    forall k ensures WithTimestamp(t, k) == WithTimestamp(SortNewestFirst(s), k) {
      SortIsStable(s, k);
    }
    OrderAndGroupsDetermine(t, SortNewestFirst(s));
  }

  /** Sorting keeps one list's records inside another's. */
  lemma SortKeepsInclusion(a: seq<SalaryData>, b: seq<SalaryData>)
    requires forall x :: x in a ==> x in b
    ensures forall x :: x in SortNewestFirst(a) ==> x in SortNewestFirst(b)
  {
    var sa, sb := SortNewestFirst(a), SortNewestFirst(b);
    assert multiset(sa) == multiset(a) && multiset(sb) == multiset(b);
    forall x | x in sa ensures x in sb {
      assert x in multiset(sa);
      assert x in a;
      assert x in multiset(b);
    }
  }

  // ---------------------------------------------------------------- the load

  /**
   * A successful load is the collected entries, newest first, stable on equal
   * timestamps, nothing added or lost; it has at most one record per index id,
   * all from the index.
   */
  lemma LoadIsSortedCollect(c: Codec, l: LedgerState, list: seq<SalaryData>)
    requires Load(c, Some(l)) == Some(list)
    ensures ReadIndex(c, l).Some?
    ensures NewestFirst(list)
    ensures multiset(list) == multiset(Collect(c, l, ReadIndex(c, l).value))
    ensures forall k :: WithTimestamp(list, k) == WithTimestamp(Collect(c, l, ReadIndex(c, l).value), k)
    ensures |list| <= |ReadIndex(c, l).value|
    ensures forall r :: r in list ==> r.id in ReadIndex(c, l).value
  {
    var collected := Collect(c, l, ReadIndex(c, l).value);
    forall k ensures WithTimestamp(list, k) == WithTimestamp(collected, k) {
      SortIsStable(collected, k);
    }
    forall r | r in list ensures r.id in ReadIndex(c, l).value {
      assert r in multiset(list);
    }
  }

  /** An index slot that is empty or does not parse loads as the empty list, not an error. */
  lemma LoadMissingIndex(c: Codec, l: LedgerState)
    requires l.available && IndexKey !in l.unreadable
    requires |Lookup(l.data, IndexKey)| == 0 || c.decodeIndex(Lookup(l.data, IndexKey)).None?
    ensures Load(c, Some(l)) == Some([])
  {
  }

  /** An index that parses to a value `for...of` cannot iterate makes the load throw: nothing is assigned. */
  lemma LoadNonIterableIndex(c: Codec, l: LedgerState)
    requires IndexKey !in l.unreadable && |Lookup(l.data, IndexKey)| > 0
    requires c.decodeIndex(Lookup(l.data, IndexKey)) == Some(NotIterable)
    ensures Load(c, Some(l)).None?
  {
  }

  /** An index that parses to a string is iterated character by character, each character read as an id. */
  lemma LoadTextIndex(c: Codec, l: LedgerState, t: string)
    requires IndexKey !in l.unreadable && |Lookup(l.data, IndexKey)| > 0
    requires c.decodeIndex(Lookup(l.data, IndexKey)) == Some(Text(t))
    ensures ReadIndex(c, l).Some?
    ensures |ReadIndex(c, l).value| == |t|
    ensures forall i :: 0 <= i < |t| ==> ReadIndex(c, l).value[i] == [t[i]]
  {
  }
}
