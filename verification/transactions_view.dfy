/** The transactions page: status colours and labels, the short id, and the three
    figures above the list (completed count, pending count, total value). */
module TransactionsView {

  datatype Transaction = Transaction(id: string, status: string, totalAmount: int)

  const Gray := "bg-gray-100 text-gray-700"

  /** The colour table of `getStatusColor`. */
  const StatusColors: map<string, string> := map[
    "matched" := "bg-blue-100 text-blue-700",
    "payment_pending" := "bg-yellow-100 text-yellow-700",
    "paid" := "bg-green-100 text-green-700",
    "in_transit" := "bg-purple-100 text-purple-700",
    "completed" := "bg-emerald-100 text-emerald-700",
    "cancelled" := "bg-red-100 text-red-700"
  ]

  /** `colors[status] || "bg-gray-100 text-gray-700"`: defined for every status. */
  function StatusColor(status: string): (c: string)
    ensures status in StatusColors ==> c == StatusColors[status]
    ensures status !in StatusColors ==> c == Gray
  {
    if status in StatusColors then StatusColors[status] else Gray
  }

  /** The six known statuses get six different colours, none of them the fallback. */
  lemma StatusColorsDistinct(s: string, t: string)
    requires s in StatusColors && t in StatusColors && s != t
    ensures StatusColor(s) != StatusColor(t) && StatusColor(s) != Gray
  {
  }

  predicate IsCompleted(t: Transaction) {
    t.status == "completed"
  }

  predicate IsPending(t: Transaction) {
    t.status == "payment_pending" || t.status == "matched"
  }

  /** `items.filter(t => t.status === "completed").length` */
  function CountCompleted(items: seq<Transaction>): (n: nat)
    ensures n <= |items|
  {
    if items == [] then 0 else (if IsCompleted(items[0]) then 1 else 0) + CountCompleted(items[1..])
  }

  /** `items.filter(t => t.status === "payment_pending" || t.status === "matched").length` */
  function CountPending(items: seq<Transaction>): (n: nat)
    ensures n <= |items|
  {
    if items == [] then 0 else (if IsPending(items[0]) then 1 else 0) + CountPending(items[1..])
  }

  /** No transaction is both completed and pending, so the two figures together never
      exceed the number of transactions. */
  lemma {:induction false} CountsBounded(items: seq<Transaction>)
    ensures CountCompleted(items) + CountPending(items) <= |items|
  {
    if items != [] {
      CountsBounded(items[1..]);
    }
  }

  /** Both counts add up over a concatenation, so each counts every matching item
      exactly once wherever it stands. */
  lemma {:induction false} CountsAppend(a: seq<Transaction>, b: seq<Transaction>)
    ensures CountCompleted(a + b) == CountCompleted(a) + CountCompleted(b)
    ensures CountPending(a + b) == CountPending(a) + CountPending(b)
  {
    if a == [] {
      assert a + b == b;
    } else {
      assert (a + b)[0] == a[0] && (a + b)[1..] == a[1..] + b;
      CountsAppend(a[1..], b);
    }
  }

  /** A single transaction is counted as completed iff its status says so, and as
      pending iff it is awaiting payment or matched. */
  lemma CountOne(t: Transaction)
    ensures CountCompleted([t]) == 1 <==> t.status == "completed"
    ensures CountPending([t]) == 1 <==> t.status == "payment_pending" || t.status == "matched"
  {
    assert [t][1..] == [];
  }

  /** `items.reduce((sum, t) => sum + t.total_amount, 0)`, over whole amounts. */
  function TotalValue(items: seq<Transaction>): (v: int)
    ensures items == [] ==> v == 0
    ensures |items| == 1 ==> v == items[0].totalAmount
    ensures (forall i :: 0 <= i < |items| ==> items[i].totalAmount >= 0) ==> v >= 0
  {
    if items == [] then 0 else TotalValue(items[..|items| - 1]) + items[|items| - 1].totalAmount
  }

  /** The total adds up over a concatenation. */
  lemma {:induction false} TotalValueAppend(a: seq<Transaction>, b: seq<Transaction>)
    ensures TotalValue(a + b) == TotalValue(a) + TotalValue(b)
    decreases |b|
  {
    if b == [] {
      assert a + b == a;
    } else {
      assert (a + b)[..|a + b| - 1] == a + b[..|b| - 1];
      TotalValueAppend(a, b[..|b| - 1]);
    }
  }

  /** Where the first underscore stands; the length when there is none. */
  function FirstUnderscore(s: string): (i: nat)
    ensures i <= |s| && '_' !in s[..i]
    ensures i < |s| ==> s[i] == '_'
    ensures i == |s| <==> '_' !in s
  {
    if s == [] then 0
    else if s[0] == '_' then 0
    else
      var i := 1 + FirstUnderscore(s[1..]);
      assert s[..i] == [s[0]] + s[1..][..i - 1];
      i
  }

  /** `status.replace("_", " ")`: a string pattern replaces only its first match. */
  function StatusLabel(status: string): (r: string)
    ensures |r| == |status|
    ensures '_' !in status ==> r == status
    ensures forall k :: 0 <= k < |status| && r[k] != status[k] ==>
      k == FirstUnderscore(status) && status[k] == '_' && r[k] == ' '
    ensures '_' in status ==> r[FirstUnderscore(status)] == ' '
    ensures '_' in status ==> multiset(r)['_'] == multiset(status)['_'] - 1
  {
    var i := FirstUnderscore(status);
    if i == |status| then status
    else
      var r := status[..i] + " " + status[i + 1..];
      assert status == status[..i] + [status[i]] + status[i + 1..];
      r
  }

  /** A status of two words joined by its first underscore is shown as the two words
      with a space. */
  lemma TwoWordLabel(a: string, b: string)
    requires '_' !in a
    ensures StatusLabel(a + "_" + b) == a + " " + b
  {
    var s := a + "_" + b;
    assert s[..|a|] == a && s[|a|] == '_';
    assert FirstUnderscore(s) == |a|;
    assert s[|a| + 1..] == b;
  }

  /** `id.slice(0, 12)` */
  function DisplayId(id: string): (r: string)
    ensures |r| == if |id| < 12 then |id| else 12
    ensures r == id[..|r|]
  {
    if |id| <= 12 then id else id[..12]
  }
}
