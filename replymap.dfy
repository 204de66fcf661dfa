/** The reply correlation table (core/replymap.go): sequence numbers mapped to
    one-item reply slots. The read/write mutex is not modelled; every call is
    one sequential step. */
module Replies {
  import opened Ints
  import opened RoundTrips

  /** A buffered channel of capacity one carrying round-trip records. */
  class Slot {
    const capacity: nat
    var buffered: seq<RoundTrip>

    /** make(chan *RoundTrip, 1): empty, with room for one record. */
    constructor ()
      ensures capacity == 1 && buffered == []
    {
      capacity := 1;
      buffered := [];
    }
  }

  class ReplyMap {
    var allData: map<uint16, Slot>

    /** newReplyMap: no keys. */
    constructor ()
      ensures allData == map[]
    {
      allData := map[];
    }

    /** Get as written: the result is what the lookup found BEFORE inserting,
        so an absent key yields nil even though a fresh empty slot is stored
        under it. A present key leaves the table untouched. */
    method Get(key: uint16) returns (ch: Slot?)
      modifies this
      ensures key in old(allData) ==> allData == old(allData) && ch == old(allData)[key]
      ensures key !in old(allData) ==>
                && ch == null
                && key in allData
                && fresh(allData[key])
                && allData[key].capacity == 1 && allData[key].buffered == []
                && allData == old(allData)[key := allData[key]]
    {
      if key in allData {
        ch := allData[key];
      } else {
        ch := null;
        var created := new Slot();
        allData := allData[key := created];
      }
    }

    /** GetOrCreate: the lookup the tests call, returning the slot that is
        stored under the key afterwards, whether it was found or created. */
    method GetOrCreate(key: uint16) returns (ch: Slot)
      modifies this
      ensures key in allData && ch == allData[key]
      ensures key in old(allData) ==> allData == old(allData)
      ensures key !in old(allData) ==>
                && fresh(ch)
                && ch.capacity == 1 && ch.buffered == []
                && allData == old(allData)[key := ch]
    {
      if key in allData {
        ch := allData[key];
      } else {
        ch := new Slot();
        allData := allData[key := ch];
      }
    }

    /** Erase: the key is gone and every other entry is kept; an absent key
        leaves the table as it was. */
    method Erase(key: uint16)
      modifies this
      ensures allData == old(allData) - {key}
      ensures key !in old(allData) ==> allData == old(allData)
    {
      if key in allData {
        allData := allData - {key};
      }
    }
  }

  /** The first Get on a fresh table returns nil; only the second one returns
      the slot the first created. */
  method FirstGetReturnsNil(key: uint16) returns (first: Slot?, second: Slot?)
    ensures first == null
    ensures second != null
  {
    var m := new ReplyMap();
    first := m.Get(key);
    second := m.Get(key);
  }

  /** Two GetOrCreate calls on the same key hand out the same slot, the first
      of them included. */
  method GetOrCreateTwiceSameSlot(key: uint16) returns (first: Slot, second: Slot)
    ensures first == second
    ensures first.buffered == []
  {
    var m := new ReplyMap();
    first := m.GetOrCreate(key);
    second := m.GetOrCreate(key);
  }

  /** Erasing twice leaves the same table as erasing once, and the erased key
      is absent while all others keep their slots. */
  method EraseIdempotent(key: uint16, other: uint16) returns (once: map<uint16, Slot>, twice: map<uint16, Slot>)
    requires key != other
    ensures once == twice
    ensures key !in once && other in once
  {
    var m := new ReplyMap();
    var kept := m.GetOrCreate(other);
    var dropped := m.GetOrCreate(key);
    m.Erase(key);
    once := m.allData;
    m.Erase(key);
    twice := m.allData;
  }
}
