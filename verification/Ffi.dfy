// The leaked Arc of a get result, in place (core-sdk/src/ffi.rs; ffi_async.rs releases the same way).
module Ffi {
  import opened Common
  import opened Http
  import opened Machine

  /** The strings behind all Arcs. Where a new one goes is the allocator's choice. */
  class StringHeap {
    var cells: Heap

    constructor ()
      ensures cells == map[]
    {
      cells := map[];
    }

    /** Arc::new. */
    method New(loc: Loc, text: Value) returns (ref: Ref)
      requires loc !in cells
      modifies this
      ensures cells == old(cells)[loc := Cell(text, 1)] && ref == Ref(loc, text)
    {
      cells := cells[loc := Cell(text, 1)];
      ref := Ref(loc, text);
    }

    /** Arc::clone. */
    method Clone(ref: Ref)
      requires ref.loc in cells
      modifies this
      ensures cells == Retain(old(cells), ref.loc)
    {
      cells := cells[ref.loc := Cell(cells[ref.loc].text, cells[ref.loc].strong + 1)];
    }

    /** Dropping an Arc: the last one frees the string. */
    method Reclaim(ref: Ref)
      requires ref.loc in cells
      modifies this
      ensures cells == Drop(old(cells), ref.loc)
    {
      if cells[ref.loc].strong <= 1 {
        cells := cells - {ref.loc};
      } else {
        cells := cells[ref.loc := Cell(cells[ref.loc].text, cells[ref.loc].strong - 1)];
      }
    }
  }

  /** The result of a get that asked: the reply's value as the string at `loc`, or the code that goes with the reply. */
  predicate Fetched(result: GetResult, reply: HttpReply, loc: Loc) {
    && GetSays(reply, result.code)
    && result.value == (if result.code == Success then Some(Ref(loc, reply.body.value)) else None)
    && result.arc == result.value
  }

  class KvGetResult {
    var code: ErrorCode
    var value: Option<Ref>
    var arcHandle: Option<Ref>

    ghost function View(): GetResult
      reads this
    {
      GetResult(code, value, arcHandle)
    }

    /** The Arc handed in is leaked into the result: its count does not change. */
    constructor Success(ref: Ref)
      ensures View() == GetResult(ErrorCode.Success, Some(ref), Some(ref)) == ResultOf(Found(ref))
    {
      code, value, arcHandle := ErrorCode.Success, Some(ref), Some(ref);
    }

    constructor Error(code: ErrorCode)
      ensures View() == GetResult(code, None, None) == ResultOf(Failed(code))
    {
      this.code, value, arcHandle := code, None, None;
    }
  }

  /** kv_store_release_get and kv_store_async_release_get. A second release of the same result does nothing. */
  method ReleaseGet(result: KvGetResult?, heap: StringHeap)
    requires result != null && result.arcHandle.Some? ==> result.arcHandle.value.loc in heap.cells
    modifies if result == null then {} else {result}, heap
    ensures result == null ==> heap.cells == old(heap.cells)
    ensures result != null ==> result.View() == old(result.View()).(arc := None)
    ensures result != null ==>
              heap.cells == if old(result.arcHandle).None? then old(heap.cells)
                            else Drop(old(heap.cells), old(result.arcHandle).value.loc)
  {
    if result == null {
      return;
    }
    if result.arcHandle.Some? {
      heap.Reclaim(result.arcHandle.value);
      result.arcHandle := None;
    }
  }
}
