/**
 * The component's state and its two state-changing operations:
 * `loadSalaryData` and `submitSalary`, with the modal's `handleSubmit` guard.
 */
module Component {
  import opened Wrappers
  import opened Records
  import opened Ledger
  import opened Reconcile
  import opened Submission
  import opened Views

  /** What `getContractReadOnly()` / `getContractWithSigner()` yields: a contract or nothing. */
  function StateOf(contract: Contract?): Option<LedgerState>
    reads contract
  {
    if contract == null then None else Some(contract.State())
  }

  class App {
    /** The JSON/UTF-8/base64 layer the component calls. */
    const codec: Codec
    var salaryData: seq<SalaryData>
    var isRefreshing: bool
    var loading: bool
    var submitting: bool
    /** A wallet provider is connected (`provider !== null`). */
    var provider: bool
    /** The submit form's state (`newSalaryData`). */
    var newSalaryData: SalaryForm

    constructor (codec: Codec)
      ensures this.codec == codec && salaryData == [] && !isRefreshing && loading && !submitting
      ensures !provider && newSalaryData == SalaryForm("", "", "", "")
    {
      this.codec := codec;
      salaryData := [];
      isRefreshing := false;
      loading := true;
      submitting := false;
      provider := false;
      newSalaryData := SalaryForm("", "", "", "");
    }

    /**
     * The `try` block of `loadSalaryData`: check availability, read the index,
     * read every record it names skipping the ones that fail, sort newest
     * first. `None` when it returns early, or when the index read or the
     * iteration over the parsed index throws.
     */
    method ReadSalaryList(contract: Contract?) returns (r: Option<seq<SalaryData>>)
      ensures r == Load(codec, StateOf(contract))
    {
      if contract == null {
        return None;
      }
      var isAvailable := contract.IsAvailable();
      if !isAvailable {
        return None;
      }
      var keysBytes := contract.GetData(IndexKey);
      if keysBytes.None? {
        return None;
      }
      var parsedKeys := IndexIds(codec, keysBytes.value);
      if parsedKeys.None? {
        // `for...of` over a value that is not iterable throws
        return None;
      }
      var keys := parsedKeys.value;
      var list: seq<SalaryData> := [];
      var i := 0;
      while i < |keys|
        invariant 0 <= i <= |keys|
        invariant list == Collect(codec, contract.State(), keys[..i])
      {
        var key := keys[i];
        var salaryBytes := contract.GetData(RecordKey(key));
        if salaryBytes.Some? && |salaryBytes.value| > 0 {
          var parsed := codec.decodeRecord(salaryBytes.value);
          if parsed.Some? {
            list := list + [FromDoc(key, parsed.value)];
          }
        }
        assert keys[..i + 1][..i] == keys[..i];
        i := i + 1;
      }
      assert keys[..|keys|] == keys;
      r := Some(SortNewestFirst(list));
    }

    /**
     * `loadSalaryData`: replaces `salaryData` by the reconciled list, or leaves
     * it as it was when the load returns early or throws; the refresh and
     * loading flags always end false.
     */
    method LoadSalaryData(contract: Contract?)
      modifies this`salaryData, this`isRefreshing, this`loading
      ensures !isRefreshing && !loading
      ensures salaryData == match Load(codec, StateOf(contract))
        case None => old(salaryData)
        case Some(list) => list
    {
      isRefreshing := true;
      var result := ReadSalaryList(contract);
      if result.Some? {
        salaryData := result.value;
      }
      isRefreshing := false;
      loading := false;
    }

    /**
     * `submitSalary` with the id and clock passed in. `contract` is the one
     * store both `getContractWithSigner()` and `getContractReadOnly()` connect
     * to; `signerObtained` and `readerObtained` say whether each call yielded
     * it. Without a connected wallet nothing happens. Otherwise the store's
     * slots change as `Submit` says, and a successful submission reloads the
     * list through the read-only contract.
     */
    method SubmitSalary(contract: Contract, signerObtained: bool, readerObtained: bool, salaryId: string, nowMillis: int)
      returns (outcome: SubmitOutcome)
      modifies this`salaryData, this`isRefreshing, this`loading, this`submitting, contract`data
      ensures !old(provider) ==>
        && outcome == NotConnected && submitting == old(submitting)
        && salaryData == old(salaryData) && isRefreshing == old(isRefreshing) && loading == old(loading)
        && contract.data == old(contract.data)
      ensures old(provider) ==> !submitting
      ensures old(provider) && !signerObtained ==> outcome == Failed && contract.data == old(contract.data)
      ensures old(provider) && signerObtained ==>
        var r := Submit(codec, old(contract.State()), newSalaryData, salaryId, nowMillis);
        outcome == r.outcome && contract.data == r.data
      ensures outcome != Submitted ==>
        salaryData == old(salaryData) && isRefreshing == old(isRefreshing) && loading == old(loading)
      ensures outcome == Submitted ==>
        && !isRefreshing && !loading
        && salaryData == match Load(codec, if readerObtained then Some(contract.State()) else None)
          case None => old(salaryData)
          case Some(list) => list
    {
      if !provider {
        return NotConnected;
      }
      submitting := true;
      ghost var before := contract.State();
      ghost var expected := Submit(codec, before, newSalaryData, salaryId, nowMillis);
      var encrypted := codec.base64(newSalaryData.salary);
      if encrypted.None? || !signerObtained {
        submitting := false;
        return Failed;
      }
      var record := NewDoc(newSalaryData, Handle(encrypted.value), nowMillis);
      var written := contract.SetData(RecordKey(salaryId), codec.encodeRecord(record));
      if !written {
        assert expected == SubmitResult(Failed, before.data);
        submitting := false;
        return Failed;
      }
      assert contract.data == before.data[RecordKey(salaryId) := codec.encodeRecord(record)];
      var keysBytes := contract.GetData(IndexKey);
      if keysBytes.None? {
        assert expected == SubmitResult(Failed, contract.data);
        submitting := false;
        return Failed;
      }
      assert keysBytes.value == Lookup(contract.data, IndexKey);
      var keys := AppendBase(codec, keysBytes.value);
      if keys.None? {
        // `keys.push` on a parsed value that is not an array throws
        assert expected == SubmitResult(Failed, contract.data);
        submitting := false;
        return Failed;
      }
      ghost var appended := WriteIndex(codec, contract.data, keys.value + [salaryId]);
      assert AppendId(codec, contract.data, salaryId) == Some(appended);
      written := contract.SetData(IndexKey, codec.encodeIndex(keys.value + [salaryId]));
      if !written {
        assert expected == SubmitResult(Failed, contract.data);
        submitting := false;
        return Failed;
      }
      assert expected == SubmitResult(Submitted, contract.data);
      outcome := Submitted;
      var reader: Contract? := if readerObtained then contract else null;
      LoadSalaryData(reader);
      submitting := false;
    }

    /**
     * `ModalSubmit.handleSubmit`: submits only when every field of the form is
     * filled in; otherwise (the alert) nothing changes. `None` stands for "not
     * submitted"; `Some(o)` carries what `submitSalary` ended with.
     */
    method HandleSubmit(contract: Contract, signerObtained: bool, readerObtained: bool, salaryId: string, nowMillis: int)
      returns (outcome: Option<SubmitOutcome>)
      modifies this`salaryData, this`isRefreshing, this`loading, this`submitting, contract`data
      ensures outcome.Some? <==> FormComplete(old(newSalaryData))
      ensures outcome.None? ==>
        && salaryData == old(salaryData) && submitting == old(submitting)
        && isRefreshing == old(isRefreshing) && loading == old(loading)
        && contract.data == old(contract.data)
      ensures outcome.Some? && !old(provider) ==>
        && outcome == Some(NotConnected) && submitting == old(submitting)
        && contract.data == old(contract.data)
      ensures outcome.Some? && old(provider) ==> !submitting
      ensures outcome.Some? && old(provider) && !signerObtained ==>
        outcome == Some(Failed) && contract.data == old(contract.data)
      ensures outcome.Some? && old(provider) && signerObtained ==>
        var r := Submit(codec, old(contract.State()), newSalaryData, salaryId, nowMillis);
        outcome == Some(r.outcome) && contract.data == r.data
      ensures outcome != Some(Submitted) ==>
        salaryData == old(salaryData) && isRefreshing == old(isRefreshing) && loading == old(loading)
      ensures outcome == Some(Submitted) ==>
        && !isRefreshing && !loading
        && salaryData == match Load(codec, if readerObtained then Some(contract.State()) else None)
          case None => old(salaryData)
          case Some(list) => list
    {
      if !FormComplete(newSalaryData) {
        return None;
      }
      var o := SubmitSalary(contract, signerObtained, readerObtained, salaryId, nowMillis);
      outcome := Some(o);
    }
  }
}
