/**
 * The deployed storage contract as the component sees it: `isAvailable()`,
 * `getData(key)` and `setData(key, bytes)` over one shared key-value map.
 * Transport failures are made explicit: reading a key in `unreadable` throws,
 * writing a key in `unwritable` is rejected (by the user or the network).
 * A write is visible to every later read as soon as `setData` returns.
 */
module Ledger {
  import opened Wrappers
  import opened Records

  /** A snapshot of the contract and of how its calls would behave. */
  datatype LedgerState = LedgerState(
    data: map<string, Bytes>,
    available: bool,
    unreadable: set<string>,
    unwritable: set<string>)

  /** `getData` of a slot: a slot never written reads as empty bytes. */
  function Lookup(data: map<string, Bytes>, key: string): Bytes {
    if key in data then data[key] else []
  }

  /** `getData` including its failure: `None` when the call throws. */
  function Read(l: LedgerState, key: string): Option<Bytes> {
    if key in l.unreadable then None else Some(Lookup(l.data, key))
  }

  class Contract {
    var data: map<string, Bytes>
    var available: bool
    var unreadable: set<string>
    var unwritable: set<string>

    function State(): LedgerState
      reads this
    {
      LedgerState(data, available, unreadable, unwritable)
    }

    constructor (data: map<string, Bytes>, available: bool, unreadable: set<string>, unwritable: set<string>)
      ensures State() == LedgerState(data, available, unreadable, unwritable)
    {
      this.data := data;
      this.available := available;
      this.unreadable := unreadable;
      this.unwritable := unwritable;
    }

    /** `contract.isAvailable()`. */
    method IsAvailable() returns (b: bool)
      ensures b == available
    {
      b := available;
    }

    /** `contract.getData(key)`; `None` stands for the call throwing. */
    method GetData(key: string) returns (r: Option<Bytes>)
      ensures r == Read(State(), key)
    {
      if key in unreadable {
        r := None;
      } else if key in data {
        r := Some(data[key]);
      } else {
        r := Some([]);
      }
    }

    /** `contract.setData(key, value)`: one slot replaced, or a rejected transaction and no change. */
    method SetData(key: string, value: Bytes) returns (ok: bool)
      modifies this`data
      ensures ok <==> key !in unwritable
      ensures data == if ok then old(data)[key := value] else old(data)
    {
      ok := key !in unwritable;
      if ok {
        data := data[key := value];
      }
    }
  }
}
