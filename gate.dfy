/** The process-wide set `processing_members` of in-flight join keys. */
module Gate {

  class JoinGate {
    var processing: set<string>

    /** The module-level `set()`. */
    constructor ()
      ensures processing == {}
    {
      processing := {};
    }

    /** Check-then-add, with no suspension point in between: a key already in
        flight is refused and the set is left alone; otherwise the key is added. */
    method Begin(key: string) returns (admitted: bool)
      modifies this
      ensures admitted <==> key !in old(processing)
      ensures processing == old(processing) + {key}
    {
      admitted := key !in processing;
      if admitted {
        processing := processing + {key};
      }
    }

    /** `discard`: removes the key if present, and is a no-op otherwise. */
    method End(key: string)
      modifies this
      ensures processing == old(processing) - {key}
    {
      processing := processing - {key};
    }

    /** `clear()` when the client becomes ready. */
    method Reset()
      modifies this
      ensures processing == {}
    {
      processing := {};
    }
  }
}
