/** The page table: the host's sequential validation, what a device block checks of it, and the
translation from a request's logical tokens to rows of the page pool. */
module PageTable {
  import opened Arithmetic
  import opened Ragged

  const PAGE_SIZE: nat := 16

  datatype Fault =
    | WrongLength
    | IndptrStart
    | NonMonotonic(request: nat)
    | EmptyRequest(request: nat)
    | TailLength(request: nat)
    | IndexOutOfRange(position: nat)

  datatype Check = Passed | Failed(fault: Fault)

  /** Three i32 arrays with arbitrary contents, read against a pool of `maxPages` pages. */
  datatype Table = Table(batch: nat, maxPages: nat, indptr: seq<int>, indices: seq<int>, tails: seq<int>) {
    /** The launch contract: lengths only. */
    predicate Launchable()
    {
      && batch >= 1 && maxPages >= 1 && |indptr| == batch + 1 && |tails| == batch
      && I32s(indptr) && I32s(indices) && I32s(tails)
    }

    predicate RequestSane(request: nat)
      requires |indptr| == batch + 1 && |tails| == batch && request < batch
    {
      indptr[request] < indptr[request + 1] && 1 <= tails[request] <= PAGE_SIZE
    }

    predicate PageOk(slot: nat)
      requires slot < |indices|
    {
      0 <= indices[slot] < maxPages
    }

    /** What the host accepts. */
    ghost predicate Valid()
    {
      && |indptr| == batch + 1 && |tails| == batch && indptr[0] == 0 && indptr[batch] == |indices|
      && (forall request: nat {:trigger RequestSane(request)} :: request < batch ==> RequestSane(request))
      && (forall slot: nat {:trigger PageOk(slot)} :: slot < |indices| ==> PageOk(slot))
    }

    predicate HeaderOk()
      requires |indptr| == batch + 1
    {
      indptr[0] == 0 && indptr[batch] >= 0 && indptr[batch] == |indices|
    }

    /** The range checks a block makes on the request it serves. */
    predicate RequestOk(request: nat)
      requires |indptr| == batch + 1 && |tails| == batch && request < batch
    {
      0 <= indptr[request] < indptr[request + 1] <= indptr[batch] && 1 <= tails[request] <= PAGE_SIZE
    }

    ghost predicate PagesOk(request: nat)
      requires |indptr| == batch + 1 && |tails| == batch && request < batch && HeaderOk() && RequestOk(request)
    {
      forall slot: nat {:trigger PageOk(slot)} :: indptr[request] <= slot < indptr[request + 1] ==> PageOk(slot)
    }

    /** What a device block serving `request` accepts. */
    ghost predicate Accepts(request: nat)
      requires Launchable()
    {
      request < batch && HeaderOk() && RequestOk(request) && PagesOk(request)
    }

    function KvLen(request: nat): (n: nat)
      requires |indptr| == batch + 1 && |tails| == batch && request < batch && RequestOk(request)
      ensures n >= 1 && (n - 1) / PAGE_SIZE == indptr[request + 1] - indptr[request] - 1
    {
      (indptr[request + 1] - indptr[request] - 1) * PAGE_SIZE + tails[request]
    }

    function PageSlot(request: nat, token: nat): (slot: nat)
      requires Launchable() && request < batch && HeaderOk() && RequestOk(request) && token < KvLen(request)
      ensures indptr[request] <= slot < indptr[request + 1]
    {
      DivMonotone(token, KvLen(request) - 1, PAGE_SIZE);
      indptr[request] + token / PAGE_SIZE
    }

    /** Row of the pool that holds a logical token. */
    function PoolRow(request: nat, token: nat): (row: nat)
      requires Launchable() && request < batch && HeaderOk() && RequestOk(request) && token < KvLen(request)
      requires PageOk(PageSlot(request, token))
      ensures row < maxPages * PAGE_SIZE
    {
      indices[PageSlot(request, token)] * PAGE_SIZE + token % PAGE_SIZE
    }

    /** The request and offset ranges of valid tables are ordered and stay inside the index array. */
    lemma {:induction false} Ordered(x: nat, y: nat)
      requires Valid() && x <= y <= batch
      ensures indptr[x] <= indptr[y]
      decreases y
    {
      if x < y {
        Ordered(x, y - 1);
        assert RequestSane(y - 1);
      }
    }

    /** The request whose page range contains `slot`. */
    lemma SlotRequest(slot: nat, k: nat) returns (request: nat)
      requires Launchable() && HeaderOk() && k < batch && indptr[k] <= slot < |indices|
      ensures request < batch && indptr[request] <= slot < indptr[request + 1]
      decreases batch - k
    {
      if slot < indptr[k + 1] {
        request := k;
      } else {
        request := SlotRequest(slot, k + 1);
      }
    }

    /** Every block accepts its request exactly when the host accepts the whole table. */
    lemma AcceptsAgree()
      requires Launchable()
      ensures Valid() <==> forall request: nat {:trigger Accepts(request)} :: request < batch ==> Accepts(request)
    {
      if Valid() {
        forall request: nat | request < batch ensures Accepts(request) {
          assert RequestSane(request);
          Ordered(0, request);
          Ordered(request + 1, batch);
        }
      }
      if forall request: nat {:trigger Accepts(request)} :: request < batch ==> Accepts(request) {
        assert Accepts(0);
        forall request: nat | request < batch ensures RequestSane(request) {
          assert Accepts(request);
        }
        forall slot: nat | slot < |indices| ensures PageOk(slot) {
          var request := SlotRequest(slot, 0);
          assert Accepts(request);
        }
      }
    }

    ghost predicate SaneBefore(request: nat)
      requires |indptr| == batch + 1 && |tails| == batch && request <= batch
    {
      forall k: nat {:trigger RequestSane(k)} :: k < request ==> RequestSane(k)
    }

    ghost predicate PagesBefore(position: nat)
      requires position <= |indices|
    {
      forall k: nat {:trigger PageOk(k)} :: k < position ==> PageOk(k)
    }

    /** The fault reported is the first one in scan order. */
    ghost predicate Explains(fault: Fault)
    {
      match fault
      case WrongLength =>
        |indptr| != batch + 1 || |tails| != batch
        || (indptr[0] == 0 && SaneBefore(batch) && |indices| != indptr[batch])
      case IndptrStart => |indptr| == batch + 1 && |tails| == batch && indptr[0] != 0
      case NonMonotonic(r) =>
        |indptr| == batch + 1 && |tails| == batch && r < batch && SaneBefore(r) && indptr[r + 1] < indptr[r]
      case EmptyRequest(r) =>
        |indptr| == batch + 1 && |tails| == batch && r < batch && SaneBefore(r) && indptr[r + 1] == indptr[r]
      case TailLength(r) =>
        && |indptr| == batch + 1 && |tails| == batch && r < batch && SaneBefore(r) && indptr[r] < indptr[r + 1]
        && !(1 <= tails[r] <= PAGE_SIZE)
      case IndexOutOfRange(p) => p < |indices| && PagesBefore(p) && !PageOk(p)
    }

    /** The host's sequential scan. */
    method Validate() returns (check: Check)
      ensures check.Passed? <==> Valid()
      ensures check.Failed? ==> Explains(check.fault)
    {
      if |indptr| != batch + 1 || |tails| != batch {
        return Failed(WrongLength);
      }
      if indptr[0] != 0 {
        return Failed(IndptrStart);
      }
      for request := 0 to batch
        invariant SaneBefore(request)
      {
        var (start, end) := (indptr[request], indptr[request + 1]);
        assert RequestSane(request) <==> start < end && 1 <= tails[request] <= PAGE_SIZE;
        if end < start {
          return Failed(NonMonotonic(request));
        }
        if end == start {
          return Failed(EmptyRequest(request));
        }
        if !(1 <= tails[request] <= PAGE_SIZE) {
          return Failed(TailLength(request));
        }
      }
      if |indices| != indptr[batch] {
        return Failed(WrongLength);
      }
      for position := 0 to |indices|
        invariant PagesBefore(position)
      {
        if !PageOk(position) {
          return Failed(IndexOutOfRange(position));
        }
      }
      return Passed;
    }
  }
}
