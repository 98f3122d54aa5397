/**
 * Submission (`submitSalary`): write the record slot, then append the new id
 * to the index by an unsynchronised read-modify-write.
 */
module Submission {
  import opened Wrappers
  import opened Records
  import opened Ledger
  import opened Reconcile

  datatype SubmitOutcome = NotConnected | Failed | Submitted

  /** How a submission ended and the contract's slots afterwards. */
  datatype SubmitResult = SubmitResult(outcome: SubmitOutcome, data: map<string, Bytes>)

  /**
   * The list `keys.push(id)` is applied to, for the index bytes `b`: empty for
   * empty or unparsable bytes, the parsed list, or `None` when the parsed value
   * is not an array and `push` throws. When it exists it is the list a load
   * iterates.
   */
  function AppendBase(c: Codec, b: Bytes): (r: Option<seq<string>>)
    ensures |b| == 0 ==> r == Some([])
    ensures |b| > 0 && c.decodeIndex(b).None? ==> r == Some([])
    ensures r.None? <==> |b| > 0 && c.decodeIndex(b).Some? && !c.decodeIndex(b).value.IdList?
    ensures forall ids :: Sound(c) && b == c.encodeIndex(ids) ==> r == Some(ids)
    ensures r.Some? ==> IndexIds(c, b) == r
  {
    if |b| == 0 then Some([])
    else match c.decodeIndex(b)
      case None => Some([])
      case Some(IdList(ids)) => Some(ids)
      case Some(_) => None
  }

  /** The read half of the append: the list in the index slot, if it can be appended to. */
  function IndexOf(c: Codec, data: map<string, Bytes>): Option<seq<string>> {
    AppendBase(c, Lookup(data, IndexKey))
  }

  /** The write half of the append: `setData("salary_keys", JSON of ids)`. */
  function WriteIndex(c: Codec, data: map<string, Bytes>, ids: seq<string>): map<string, Bytes> {
    data[IndexKey := c.encodeIndex(ids)]
  }

  /**
   * Both halves with nothing in between. It fails exactly when `push` would
   * throw; otherwise only the index slot changes, and it then reads back as
   * the old list followed by `id`.
   */
  function AppendId(c: Codec, data: map<string, Bytes>, id: string): (r: Option<map<string, Bytes>>)
    ensures r.Some? <==> IndexOf(c, data).Some?
    ensures r.Some? ==> forall k :: k != IndexKey ==>
      (k in r.value <==> k in data) && (k in data ==> r.value[k] == data[k])
    ensures Sound(c) && r.Some? ==> IndexOf(c, r.value) == Some(IndexOf(c, data).value + [id])
  {
    match IndexOf(c, data)
    case None => None
    case Some(ids) => Some(WriteIndex(c, data, ids + [id]))
  }

  /**
   * The effect of `submitSalary` once a wallet is connected and a signing
   * contract in state `l` is obtained: `btoa` the salary, write the record
   * slot, read the index, `push` the id, write the index back. A step that
   * throws ends the submission as `Failed`, keeping the writes already made.
   * No slot other than the record's and the index's ever changes.
   */
  function Submit(c: Codec, l: LedgerState, form: SalaryForm, id: string, nowMillis: int): (r: SubmitResult)
    ensures r.outcome != NotConnected
    ensures forall k :: k != RecordKey(id) && k != IndexKey ==>
      (k in r.data <==> k in l.data) && (k in l.data ==> r.data[k] == l.data[k])
  {
    match c.base64(form.salary)
    case None => SubmitResult(Failed, l.data)
    case Some(b64) =>
      if RecordKey(id) in l.unwritable then SubmitResult(Failed, l.data)
      else
        var written := l.data[RecordKey(id) := c.encodeRecord(NewDoc(form, Handle(b64), nowMillis))];
        if IndexKey in l.unreadable then SubmitResult(Failed, written)
        else match AppendId(c, written, id)
          case None => SubmitResult(Failed, written)
          case Some(appended) =>
            if IndexKey in l.unwritable then SubmitResult(Failed, written)
            else SubmitResult(Submitted, appended)
  }

  /** The document a submission of `form` writes, when `btoa` accepts the salary. */
  function SubmittedDoc(c: Codec, form: SalaryForm, nowMillis: int): RecordDoc
    requires c.base64(form.salary).Some?
  {
    NewDoc(form, Handle(c.base64(form.salary).value), nowMillis)
  }

  /**
   * A submission succeeds exactly when no step throws; the record slot then
   * decodes to the new document (no percentile, `"FHE-"` handle) and the index
   * to the old ids followed by `id`.
   */
  lemma SubmitWritesTwoSlots(c: Codec, l: LedgerState, form: SalaryForm, id: string, nowMillis: int)
    requires Sound(c)
    requires id != "keys"
    ensures var r := Submit(c, l, form, id, nowMillis);
      && (r.outcome == Submitted <==>
            c.base64(form.salary).Some? && RecordKey(id) !in l.unwritable
            && IndexKey !in l.unreadable && IndexOf(c, l.data).Some? && IndexKey !in l.unwritable)
      && (r.outcome == Submitted ==>
            && c.decodeRecord(Lookup(r.data, RecordKey(id))) == Some(SubmittedDoc(c, form, nowMillis))
            && SubmittedDoc(c, form, nowMillis).percentile.None?
            && SubmittedDoc(c, form, nowMillis).salary[..4] == "FHE-"
            && IndexOf(c, r.data) == Some(IndexOf(c, l.data).value + [id]))
  {
    var r := Submit(c, l, form, id, nowMillis);
    RecordKeyIsIndexKeyIff(id);
    if c.base64(form.salary).Some? && RecordKey(id) !in l.unwritable {
      var doc := SubmittedDoc(c, form, nowMillis);
      var written := l.data[RecordKey(id) := c.encodeRecord(doc)];
      assert Lookup(written, IndexKey) == Lookup(l.data, IndexKey);
      if r.outcome == Submitted {
        assert c.decodeRecord(c.encodeRecord(doc)) == Some(doc);
        assert doc.salary == "FHE-" + c.base64(form.salary).value;
      }
    }
  }

  /**
   * An index slot that parses to something other than a list makes `push`
   * throw after the record was written: the submission fails with the record
   * slot written and the index slot untouched.
   */
  lemma NonListIndexFailsAfterRecord(c: Codec, l: LedgerState, form: SalaryForm, id: string, nowMillis: int)
    requires id != "keys"
    requires c.base64(form.salary).Some? && RecordKey(id) !in l.unwritable && IndexKey !in l.unreadable
    requires |Lookup(l.data, IndexKey)| > 0
    requires c.decodeIndex(Lookup(l.data, IndexKey)).Some? && !c.decodeIndex(Lookup(l.data, IndexKey)).value.IdList?
    ensures Submit(c, l, form, id, nowMillis)
      == SubmitResult(Failed, l.data[RecordKey(id) := c.encodeRecord(SubmittedDoc(c, form, nowMillis))])
  {
    RecordKeyIsIndexKeyIff(id);
    var written := l.data[RecordKey(id) := c.encodeRecord(SubmittedDoc(c, form, nowMillis))];
    assert Lookup(written, IndexKey) == Lookup(l.data, IndexKey);
  }

  /**
   * Index bytes that do not parse are replaced by a fresh list: after a
   * successful submission the index holds the new id alone.
   */
  lemma UnparsableIndexStartsNewList(c: Codec, l: LedgerState, form: SalaryForm, id: string, nowMillis: int)
    requires Sound(c)
    requires id != "keys"
    requires c.decodeIndex(Lookup(l.data, IndexKey)).None?
    requires Submit(c, l, form, id, nowMillis).outcome == Submitted
    ensures IndexOf(c, Submit(c, l, form, id, nowMillis).data) == Some([id])
  {
    assert IndexOf(c, l.data) == Some([]);
    SubmitWritesTwoSlots(c, l, form, id, nowMillis);
    assert [] + [id] == [id];
  }

  /**
   * The record is written before the index: a submission that does not succeed
   * leaves the index slot as it was, and whenever the index slot has changed
   * the record slot already holds the new record.
   */
  lemma RecordWrittenBeforeIndex(c: Codec, l: LedgerState, form: SalaryForm, id: string, nowMillis: int)
    requires id != "keys"
    ensures var r := Submit(c, l, form, id, nowMillis);
      && (r.outcome != Submitted ==> Lookup(r.data, IndexKey) == Lookup(l.data, IndexKey))
      && (Lookup(r.data, IndexKey) != Lookup(l.data, IndexKey) ==>
            c.base64(form.salary).Some?
            && Lookup(r.data, RecordKey(id)) == c.encodeRecord(SubmittedDoc(c, form, nowMillis)))
  {
    RecordKeyIsIndexKeyIff(id);
  }

  /**
   * The lost update: two appends that both read the index before either writes
   * leave only the second id; the first is silently dropped.
   */
  lemma LostUpdate(c: Codec, data: map<string, Bytes>, a: string, b: string)
    requires Sound(c)
    requires IndexOf(c, data).Some?
    ensures var base := IndexOf(c, data).value;
      var afterA := WriteIndex(c, data, base + [a]);
      var afterB := WriteIndex(c, afterA, base + [b]);
      && IndexOf(c, afterB) == Some(base + [b])
      && (a !in base && a != b ==> a !in IndexOf(c, afterB).value)
  {
  }

  /** Run one after the other, the same two appends keep both ids, in order. */
  lemma SequentialAppendsKeepBoth(c: Codec, data: map<string, Bytes>, a: string, b: string)
    requires Sound(c)
    requires IndexOf(c, data).Some?
    ensures AppendId(c, data, a).Some?
    ensures AppendId(c, AppendId(c, data, a).value, b).Some?
    ensures IndexOf(c, AppendId(c, AppendId(c, data, a).value, b).value) == Some(IndexOf(c, data).value + [a, b])
  {
    assert IndexOf(c, data).value + [a] + [b] == IndexOf(c, data).value + [a, b];
  }

  /** The record a reload lists for a submission of `form` as `id`. */
  function ListedSubmission(c: Codec, form: SalaryForm, id: string, nowMillis: int): (r: SalaryData)
    requires c.base64(form.salary).Some?
    ensures r.id == id && r.percentile.None? && |r.encryptedSalary| >= 4 && r.encryptedSalary[..4] == "FHE-"
    ensures r.industry == form.industry && r.position == form.position && r.region == form.region
  {
    FromDoc(id, SubmittedDoc(c, form, nowMillis))
  }

  /** Sorting a list whose last record has an id no other record has lists that record exactly once. */
  lemma SortKeepsFreshRecordOnce(prefix: seq<SalaryData>, x: SalaryData)
    requires forall y :: y in prefix ==> y.id != x.id
    ensures var list := SortNewestFirst(prefix + [x]);
      && x in list
      && (forall y :: y in list && y.id == x.id ==> y == x)
      && CountIf(list, (y: SalaryData) => y.id == x.id) == 1
  {
    var all := prefix + [x];
    var list := SortNewestFirst(all);
    var hasId := (y: SalaryData) => y.id == x.id;
    CountIfZeroIff(prefix, hasId);
    CountIfAppend(prefix, [x], hasId);
    assert CountIf([x], hasId) == 1 + CountIf([], hasId);
    CountIfPermutation(list, all, hasId);
    assert x in multiset(all);
    forall y | y in list && y.id == x.id ensures y == x {
      assert y in multiset(list);
      assert y in all;
    }
  }

  /** After a successful submission the index reads as the old ids plus `id`, and they collect to the old ids' records plus the new one. */
  lemma ReloadCollects(c: Codec, l: LedgerState, form: SalaryForm, id: string, nowMillis: int)
    requires Sound(c)
    requires IndexKey !in l.unreadable && RecordKey(id) !in l.unreadable
    requires id != "keys"
    requires Submit(c, l, form, id, nowMillis).outcome == Submitted
    ensures c.base64(form.salary).Some? && IndexOf(c, l.data).Some?
    ensures var after := l.(data := Submit(c, l, form, id, nowMillis).data);
      var ids := IndexOf(c, l.data).value;
      && ReadIndex(c, after) == Some(ids + [id])
      && Collect(c, after, ids + [id]) == Collect(c, after, ids) + [ListedSubmission(c, form, id, nowMillis)]
  {
    var after := l.(data := Submit(c, l, form, id, nowMillis).data);
    SubmitWritesTwoSlots(c, l, form, id, nowMillis);
    var ids := IndexOf(c, l.data).value;
    RecordKeyIsIndexKeyIff(id);
    assert Entry(c, after, id) == Some(ListedSubmission(c, form, id, nowMillis));
    assert Collect(c, after, [id]) == [ListedSubmission(c, form, id, nowMillis)] by {
      assert [id][..0] == [];
    }
    CollectAppend(c, after, ids, [id]);
  }

  /**
   * A reload after a successful submission of a fresh id lists exactly one
   * record with that id: the submitted fields, the `"FHE-"` handle and no
   * percentile.
   */
  lemma ReloadAfterSubmit(c: Codec, l: LedgerState, form: SalaryForm, id: string, nowMillis: int)
    requires Sound(c)
    requires l.available && IndexKey !in l.unreadable && RecordKey(id) !in l.unreadable
    requires id != "keys"
    requires IndexOf(c, l.data).Some? && id !in IndexOf(c, l.data).value
    requires Submit(c, l, form, id, nowMillis).outcome == Submitted
    ensures c.base64(form.salary).Some?
    ensures var list := Load(c, Some(l.(data := Submit(c, l, form, id, nowMillis).data)));
      && list.Some?
      && ListedSubmission(c, form, id, nowMillis) in list.value
      && (forall x :: x in list.value && x.id == id ==> x == ListedSubmission(c, form, id, nowMillis))
      && CountIf(list.value, (x: SalaryData) => x.id == id) == 1
  {
    var after := l.(data := Submit(c, l, form, id, nowMillis).data);
    var ids := IndexOf(c, l.data).value;
    ReloadCollects(c, l, form, id, nowMillis);
    var prefix := Collect(c, after, ids);
    assert Load(c, Some(after)) == Some(SortNewestFirst(prefix + [ListedSubmission(c, form, id, nowMillis)]));
    SortKeepsFreshRecordOnce(prefix, ListedSubmission(c, form, id, nowMillis));
  }

  /** A successful submission of a fresh id leaves every indexed record slot reading as before, provided no indexed id is "keys". */
  lemma SubmitKeepsIndexedSlots(c: Codec, l: LedgerState, form: SalaryForm, id: string, nowMillis: int)
    requires IndexOf(c, l.data).Some? && id !in IndexOf(c, l.data).value && "keys" !in IndexOf(c, l.data).value
    ensures var after := l.(data := Submit(c, l, form, id, nowMillis).data);
      forall j :: j in IndexOf(c, l.data).value ==> Read(l, RecordKey(j)) == Read(after, RecordKey(j))
  {
    var after := l.(data := Submit(c, l, form, id, nowMillis).data);
    forall j | j in IndexOf(c, l.data).value ensures Read(l, RecordKey(j)) == Read(after, RecordKey(j)) {
      RecordKeyInjective(j, id);
      RecordKeyIsIndexKeyIff(j);
    }
  }

  /** A submission of a fresh id loses none of the records a reload listed before it, provided no indexed id is "keys". */
  lemma SubmitKeepsOtherRecords(c: Codec, l: LedgerState, form: SalaryForm, id: string, nowMillis: int)
    requires Sound(c)
    requires l.available && IndexKey !in l.unreadable && RecordKey(id) !in l.unreadable
    requires id != "keys"
    requires IndexOf(c, l.data).Some? && id !in IndexOf(c, l.data).value && "keys" !in IndexOf(c, l.data).value
    requires Submit(c, l, form, id, nowMillis).outcome == Submitted
    ensures var after := l.(data := Submit(c, l, form, id, nowMillis).data);
      && Load(c, Some(l)).Some? && Load(c, Some(after)).Some?
      && forall x :: x in Load(c, Some(l)).value ==> x in Load(c, Some(after)).value
  {
    var after := l.(data := Submit(c, l, form, id, nowMillis).data);
    var ids := IndexOf(c, l.data).value;
    var before := Collect(c, l, ids);
    var collected := Collect(c, after, ids + [id]);
    assert Load(c, Some(l)) == Some(SortNewestFirst(before)) by {
      assert ReadIndex(c, l) == Some(ids);
    }
    assert Load(c, Some(after)) == Some(SortNewestFirst(collected)) by {
      ReloadCollects(c, l, form, id, nowMillis);
    }
    assert collected == before + [ListedSubmission(c, form, id, nowMillis)] by {
      ReloadCollects(c, l, form, id, nowMillis);
      SubmitKeepsIndexedSlots(c, l, form, id, nowMillis);
      CollectUnaffected(c, l, after, ids);
    }
    SortKeepsInclusion(before, collected);
  }
}
