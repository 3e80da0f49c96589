/** `initializeSequence` of src/utils/commons.js over the Sequence collection, whose
    documents are `{ _id: name, seq: number }` (src/models/Sequence.js). */
module Commons {

  const SaleCode: string := "saleCode"

  /** The collection after a successful run: the 'saleCode' document is created with
      `seq = 0` when it is absent; nothing else is read or written. */
  function Initialized(seqs: map<string, int>): (r: map<string, int>)
    ensures SaleCode in r
    ensures SaleCode !in seqs ==> r[SaleCode] == 0
    ensures SaleCode in seqs ==> r == seqs
    ensures r.Keys == seqs.Keys + {SaleCode}
    ensures forall k :: k in seqs ==> k in r && r[k] == seqs[k]
  {
    if SaleCode in seqs then seqs else seqs[SaleCode := 0]
  }

  /** Running the initialisation twice leaves the state of running it once. */
  lemma InitializeIdempotent(seqs: map<string, int>)
    ensures Initialized(Initialized(seqs)) == Initialized(seqs)
  {
  }

  /** A storage call that fails, as the storage layer decides it. */
  datatype Fault = NoFault | FindFails | CreateFails

  class SequenceStore {
    var seqs: map<string, int>

    constructor (initial: map<string, int>)
      ensures seqs == initial
    {
      seqs := initial;
    }

    /** Look-up followed by a conditional insert. A failing storage call is logged and
        swallowed: the method has no error result and the collection keeps its state. */
    method InitializeSequence(fault: Fault)
      modifies this
      ensures fault == FindFails ==> seqs == old(seqs)
      ensures fault == CreateFails && SaleCode !in old(seqs) ==> seqs == old(seqs)
      ensures fault == NoFault ==> seqs == Initialized(old(seqs))
      ensures fault == CreateFails && SaleCode in old(seqs) ==> seqs == Initialized(old(seqs))
    {
      if fault == FindFails {
        return;
      }
      var existing := SaleCode in seqs;
      if !existing {
        if fault == CreateFails {
          return;
        }
        seqs := seqs[SaleCode := 0];
      }
    }
  }

  /** Two successive runs without faults give the state of one. */
  method InitializeTwice(store: SequenceStore)
    modifies store
    ensures store.seqs == Initialized(old(store.seqs))
  {
    store.InitializeSequence(NoFault);
    store.InitializeSequence(NoFault);
    InitializeIdempotent(old(store.seqs));
  }
}
