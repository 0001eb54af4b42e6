/** The debts hook: the signed-in user's debts as last loaded from the `debts`
    table, a loading flag, and the four operations that change them. Each
    operation issues one request; the request's outcome is a parameter, and the
    local list is updated only after it succeeded. */
module UseDebts {
  import opened Common

  /** A row of the `debts` table as the client holds it. */
  datatype Debt = Debt(id: string, name: string, balance: real, minimumPayment: real, interestRate: real)

  /** The list after a successful update: each entry carrying `id` becomes the
      row the server returned, every other entry stays where and what it was. */
  function ReplaceById(debts: seq<Debt>, id: string, row: Debt): (r: seq<Debt>)
    ensures |r| == |debts|
    ensures forall i :: 0 <= i < |debts| && debts[i].id == id ==> r[i] == row
    ensures forall i :: 0 <= i < |debts| && debts[i].id != id ==> r[i] == debts[i]
  {
    if debts == [] then []
    else [if debts[0].id == id then row else debts[0]] + ReplaceById(debts[1..], id, row)
  }

  /** Updating an id that no entry carries changes nothing. */
  lemma ReplaceAbsentId(debts: seq<Debt>, id: string, row: Debt)
    requires forall i :: 0 <= i < |debts| ==> debts[i].id != id
    ensures ReplaceById(debts, id, row) == debts
  {
  }

  /** The list after a successful delete: the entries not carrying `id`, in order. */
  function RemoveById(debts: seq<Debt>, id: string): (r: seq<Debt>)
    ensures |r| <= |debts|
    ensures forall d :: d in r <==> d in debts && d.id != id
    ensures (forall i :: 0 <= i < |debts| ==> debts[i].id != id) ==> r == debts
  {
    if debts == [] then []
    else (if debts[0].id == id then [] else [debts[0]]) + RemoveById(debts[1..], id)
  }

  /** Deleting works piecewise, so the surviving entries keep their relative order. */
  lemma {:induction false} RemoveByIdDistributes(a: seq<Debt>, b: seq<Debt>, id: string)
    ensures RemoveById(a + b, id) == RemoveById(a, id) + RemoveById(b, id)
  {
    if a == [] {
      assert a + b == b;
    } else {
      assert (a + b)[0] == a[0];
      assert (a + b)[1..] == a[1..] + b;
      RemoveByIdDistributes(a[1..], b, id);
    }
  }

  /** The state a `useDebts` instance holds for the signed-in user (or nobody). */
  class DebtsState {
    /** The signed-in user's id; None when nobody is signed in. */
    const user: Option<string>
    var debts: seq<Debt>
    var loading: bool

    constructor (user: Option<string>)
      ensures this.user == user
      ensures debts == [] && loading
    {
      this.user := user;
      debts := [];
      loading := true;
    }

    /** fetchDebts: a `select` of the user's rows. `data` may be null, which
        `data || []` turns into the empty list. Loading ends whatever the
        outcome (the `finally` block). */
    method FetchDebts(reply: Reply<Option<seq<Debt>>>)
      modifies this
      ensures user.None? ==> debts == old(debts) && loading == old(loading)
      ensures user.Some? ==> !loading
      ensures user.Some? && reply.Ok? ==>
        debts == (if reply.value.Some? then reply.value.value else [])
      ensures reply.Failed? ==> debts == old(debts)
    {
      if user.None? {
        return;
      }
      match reply {
        case Ok(data) =>
          debts := if data.Some? then data.value else [];
        case Failed =>
      }
      loading := false;
    }

    /** addDebt: an `insert` returning the stored row, which is appended. */
    method AddDebt(reply: Reply<Debt>)
      modifies this
      ensures loading == old(loading)
      ensures user.Some? && reply.Ok? ==> debts == old(debts) + [reply.value]
      ensures user.None? || reply.Failed? ==> debts == old(debts)
    {
      if user.None? {
        return;
      }
      if reply.Ok? {
        debts := debts + [reply.value];
      }
    }

    /** updateDebt: an `update` of row `id` returning the stored row, which
        replaces every local entry with that id. */
    method UpdateDebt(id: string, reply: Reply<Debt>)
      modifies this
      ensures loading == old(loading)
      ensures user.Some? && reply.Ok? ==> debts == ReplaceById(old(debts), id, reply.value)
      ensures user.None? || reply.Failed? ==> debts == old(debts)
    {
      if user.None? {
        return;
      }
      if reply.Ok? {
        debts := ReplaceById(debts, id, reply.value);
      }
    }

    /** deleteDebt: a `delete` of row `id`; on success every local entry with
        that id is dropped. */
    method DeleteDebt(id: string, reply: Reply<()>)
      modifies this
      ensures loading == old(loading)
      ensures user.Some? && reply.Ok? ==> debts == RemoveById(old(debts), id)
      ensures user.None? || reply.Failed? ==> debts == old(debts)
    {
      if user.None? {
        return;
      }
      if reply.Ok? {
        debts := RemoveById(debts, id);
      }
    }
  }
}
