/**
 * The salary record as the dashboard holds it, the document stored on chain
 * for it, the storage keys, and the (abstract) wire codec.
 */
module Records {
  import opened Wrappers

  /** The raw value of one contract slot; an empty value means "never written". */
  type Bytes = seq<bv8>

  /** A record as listed by the dashboard (the `SalaryData` interface). */
  datatype SalaryData = SalaryData(
    id: string,
    encryptedSalary: string,
    industry: string,
    position: string,
    region: string,
    timestamp: int,
    percentile: Option<int>)

  /**
   * The JSON object stored at a record key: `{salary, industry, position,
   * region, timestamp}`. A document written by another client may also carry a
   * `percentile`, which the reader copies; this client never writes one.
   */
  datatype RecordDoc = RecordDoc(
    salary: string,
    industry: string,
    position: string,
    region: string,
    timestamp: int,
    percentile: Option<int>)

  /** The submit form's four text fields. */
  datatype SalaryForm = SalaryForm(industry: string, position: string, region: string, salary: string)

  /**
   * What `JSON.parse` makes of the index slot, as far as the component can
   * tell: a list of ids, a string (iterable, character by character, but
   * without `push`), or a value that cannot be iterated (`null`, a number, a
   * boolean, an object).
   */
  datatype IndexValue = IdList(ids: seq<string>) | Text(text: string) | NotIterable

  /**
   * The text and byte encodings the component relies on, kept abstract:
   * `JSON.stringify` + `toUtf8Bytes` for records and for the id index,
   * `toUtf8String` + `JSON.parse` back (which may throw: `None`), and `btoa`
   * (which throws on characters outside Latin-1: `None`). `decodeRecord` is
   * `None` for bytes that are not UTF-8, text that is not JSON, and JSON
   * `null`, which the component skips; it is also `None` for any other JSON
   * value that is not a record document, which the component would list.
   */
  datatype Codec = Codec(
    encodeRecord: RecordDoc -> Bytes,
    decodeRecord: Bytes -> Option<RecordDoc>,
    encodeIndex: seq<string> -> Bytes,
    decodeIndex: Bytes -> Option<IndexValue>,
    base64: string -> Option<string>)

  /**
   * What the model assumes of JSON and UTF-8: parsing what was stringified gives
   * it back, and a stringified value is never empty (`"[]"`, `"{...}"`).
   */
  ghost predicate Sound(c: Codec) {
    && (forall d :: |c.encodeRecord(d)| > 0 && c.decodeRecord(c.encodeRecord(d)) == Some(d))
    && (forall ids :: |c.encodeIndex(ids)| > 0 && c.decodeIndex(c.encodeIndex(ids)) == Some(IdList(ids)))
  }

  /** The single well-known slot holding the JSON list of record ids. */
  const IndexKey: string := "salary_keys"

  const RecordPrefix: string := "salary_"

  /** The slot of record `id`. */
  function RecordKey(id: string): string {
    RecordPrefix + id
  }

  /** Distinct ids never share a slot. */
  lemma RecordKeyInjective(a: string, b: string)
    ensures RecordKey(a) == RecordKey(b) <==> a == b
  {
    if RecordKey(a) == RecordKey(b) {
      assert a == RecordKey(a)[|RecordPrefix|..];
      assert b == RecordKey(b)[|RecordPrefix|..];
    }
  }

  /**
   * The index slot is itself a record slot: the one of the id "keys". Ids made
   * by the submit path contain a '-', so they never reach it.
   */
  lemma RecordKeyIsIndexKeyIff(id: string)
    ensures RecordKey(id) == IndexKey <==> id == "keys"
    ensures '-' in id ==> RecordKey(id) != IndexKey
  {
    assert IndexKey == RecordKey("keys");
    RecordKeyInjective(id, "keys");
  }

  /** The simulated ciphertext handle: `"FHE-"` followed by the base64 text, which it keeps intact. */
  function Handle(encoded: string): (h: string)
    ensures |h| == |encoded| + 4 && h[..4] == "FHE-" && h[4..] == encoded
  {
    "FHE-" + encoded
  }

  /**
   * A handle never equals the salary it was made from when that salary does
   * not start with 'F', as no numeral does ("75000", "75000.50", "-5", "1e5").
   */
  lemma HandleDiffersFromSalary(encoded: string, salary: string)
    requires |salary| == 0 || salary[0] != 'F'
    ensures Handle(encoded) != salary
  {
    assert Handle(encoded)[0] == 'F';
  }

  /** The listed record built from the id and the decoded document (App.tsx's `list.push`). */
  function FromDoc(id: string, d: RecordDoc): SalaryData {
    SalaryData(id, d.salary, d.industry, d.position, d.region, d.timestamp, d.percentile)
  }

  /**
   * The document a submission writes: the form's classification, the handle,
   * no percentile, and the clock in whole seconds rounded down
   * (`Math.floor(Date.now() / 1000)`).
   */
  function NewDoc(form: SalaryForm, handle: string, nowMillis: int): (d: RecordDoc)
    ensures d.salary == handle && d.percentile.None?
    ensures d.industry == form.industry && d.position == form.position && d.region == form.region
    ensures d.timestamp * 1000 <= nowMillis < d.timestamp * 1000 + 1000
  {
    RecordDoc(handle, form.industry, form.position, form.region, nowMillis / 1000, None)
  }

  /** The number of records satisfying `p` (`filter(p).length`). */
  function CountIf(s: seq<SalaryData>, p: SalaryData -> bool): (n: nat)
    ensures n <= |s|
  {
    if s == [] then 0 else (if p(s[0]) then 1 else 0) + CountIf(s[1..], p)
  }

  /** A count is zero exactly when no record satisfies `p`. */
  lemma {:induction false} CountIfZeroIff(s: seq<SalaryData>, p: SalaryData -> bool)
    ensures CountIf(s, p) == 0 <==> forall x :: x in s ==> !p(x)
  {
    if s != [] {
      CountIfZeroIff(s[1..], p);
      assert forall x :: x in s ==> x == s[0] || x in s[1..];
    }
  }

  lemma {:induction false} CountIfAppend(a: seq<SalaryData>, b: seq<SalaryData>, p: SalaryData -> bool)
    ensures CountIf(a + b, p) == CountIf(a, p) + CountIf(b, p)
  {
    if a != [] {
      assert (a + b)[1..] == a[1..] + b;
      CountIfAppend(a[1..], b, p);
    } else {
      assert a + b == b;
    }
  }

  /** A count depends only on which records there are, not on their order. */
  lemma {:induction false} CountIfPermutation(a: seq<SalaryData>, b: seq<SalaryData>, p: SalaryData -> bool)
    requires multiset(a) == multiset(b)
    ensures CountIf(a, p) == CountIf(b, p)
  {
    if a == [] {
      assert |b| == |multiset(b)| == 0;
    } else {
      var x := a[0];
      assert x in multiset(b);
      var k :| 0 <= k < |b| && b[k] == x;
      var rest := b[..k] + b[k + 1..];
      assert b == b[..k] + [x] + b[k + 1..];
      assert a == [x] + a[1..];
      assert multiset(b) == multiset(b[..k]) + multiset{x} + multiset(b[k + 1..]);
      assert multiset(a) == multiset{x} + multiset(a[1..]);
      assert multiset(rest) == multiset(b[..k]) + multiset(b[k + 1..]);
      assert multiset(a[1..]) == multiset(a) - multiset{x};
      assert multiset(rest) == multiset(b) - multiset{x};
      CountIfPermutation(a[1..], rest, p);
      CountIfAppend(b[..k] + [x], b[k + 1..], p);
      CountIfAppend(b[..k], [x], p);
      CountIfAppend(b[..k], b[k + 1..], p);
      assert CountIf(a, p) == (if p(x) then 1 else 0) + CountIf(a[1..], p);
      assert CountIf([x], p) == (if p(x) then 1 else 0) + CountIf([], p);
    }
  }
}
