/** Parsing of the `--wait-status` flag of `pipectl application sync`:
    user strings become deployment statuses through the enum's
    name-to-value table, and the table's names make up the help text. */
module Application {
  import opened Wrappers
  import opened Strings

  /** The protobuf enum table `DeploymentStatus_value`: enum name to value. */
  type StatusTable = map<string, int>

  const StatusPrefix := "DEPLOYMENT_"

  /** The error `makeStatuses` returns for an unknown status. */
  function BadStatus(s: string): string {
    "bad status " + s
  }

  /** `s` names a status of the table. */
  predicate Known(table: StatusTable, s: string) {
    StatusPrefix + s in table
  }

  /** `i` is the first position of `ss` whose string names no status. */
  predicate FirstUnknown(table: StatusTable, ss: seq<string>, i: int) {
    && 0 <= i < |ss|
    && !Known(table, ss[i])
    && forall j :: 0 <= j < i ==> Known(table, ss[j])
  }

  /** What `makeStatuses` computes: the statuses named by `ss`, in order,
      or the error for the first string that names none. */
  function Statuses(table: StatusTable, ss: seq<string>): (r: Result<seq<int>, string>)
    ensures r.Success? <==> forall i :: 0 <= i < |ss| ==> Known(table, ss[i])
    ensures r.Success? ==>
      && |r.value| == |ss|
      && forall i :: 0 <= i < |ss| ==> r.value[i] == table[StatusPrefix + ss[i]]
    ensures r.Failure? ==> exists i :: FirstUnknown(table, ss, i) && r.error == BadStatus(ss[i])
  {
    if ss == [] then Success([])
    else if !Known(table, ss[0]) then
      assert FirstUnknown(table, ss, 0);
      Failure(BadStatus(ss[0]))
    else
      match Statuses(table, ss[1..])
      case Success(rest) => Success([table[StatusPrefix + ss[0]]] + rest)
      case Failure(err) =>
        FirstUnknownShift(table, ss, err);
        Failure(err)
  }

  /** A first unknown position of the tail, moved one place right, is the
      first unknown position of the whole sequence when its head is known. */
  lemma FirstUnknownShift(table: StatusTable, ss: seq<string>, err: string)
    requires |ss| > 0 && Known(table, ss[0])
    requires exists i :: FirstUnknown(table, ss[1..], i) && err == BadStatus(ss[1..][i])
    ensures exists i :: FirstUnknown(table, ss, i) && err == BadStatus(ss[i])
  {
  }

  /** `makeStatuses`: validates the strings one by one, returning early on the
      first unknown one. */
  method MakeStatuses(table: StatusTable, statuses: seq<string>) returns (r: Result<seq<int>, string>)
    ensures r == Statuses(table, statuses)
  {
    var out: seq<int> := [];
    var i := 0;
    assert statuses[i..] == statuses;
    ContinueNothing(Statuses(table, statuses));
    while i < |statuses|
      invariant 0 <= i <= |statuses|
      invariant Statuses(table, statuses) == Continue(out, Statuses(table, statuses[i..]))
    {
      var s := statuses[i];
      assert statuses[i..][1..] == statuses[i + 1..];
      if StatusPrefix + s !in table {
        return Failure(BadStatus(s));
      }
      ContinueTwice(out, [table[StatusPrefix + s]], Statuses(table, statuses[i + 1..]));
      out := out + [table[StatusPrefix + s]];
      i := i + 1;
    }
    assert statuses[i..] == [];
    assert out + [] == out;
    return Success(out);
  }

  /** The outcome of a whole run, given what is already collected and the
      outcome of the remaining strings. */
  function Continue(done: seq<int>, rest: Result<seq<int>, string>): Result<seq<int>, string> {
    match rest
    case Success(v) => Success(done + v)
    case Failure(e) => Failure(e)
  }

  /** Nothing collected yet leaves the outcome as it is. */
  lemma ContinueNothing(rest: Result<seq<int>, string>)
    ensures Continue([], rest) == rest
  {
    if rest.Success? {
      assert [] + rest.value == rest.value;
    }
  }

  /** Collecting `a` and then `b` is collecting `a + b`. */
  lemma ContinueTwice(a: seq<int>, b: seq<int>, rest: Result<seq<int>, string>)
    ensures Continue(a, Continue(b, rest)) == Continue(a + b, rest)
  {
    if rest.Success? {
      assert a + (b + rest.value) == (a + b) + rest.value;
    }
  }

  /** The trimmed names of a sequence of table keys, in that order. */
  function TrimmedNames(keys: seq<string>): (names: seq<string>)
    ensures |names| == |keys|
    ensures forall i :: 0 <= i < |keys| ==> names[i] == TrimPrefix(keys[i], StatusPrefix)
  {
    seq(|keys|, i requires 0 <= i < |keys| => TrimPrefix(keys[i], StatusPrefix))
  }

  /** `order` lists every key of `keys` exactly once. */
  ghost predicate Enumerates(order: seq<string>, keys: set<string>) {
    && (forall k :: k in keys <==> k in order)
    && forall i, j :: 0 <= i < j < |order| ==> order[i] != order[j]
  }

  /** `availableStatuses`: every key of the table with the prefix trimmed,
      in the table's (unspecified) iteration order. */
  method AvailableStatuses(table: StatusTable) returns (out: seq<string>)
    ensures |out| == |table|
    ensures exists order :: Enumerates(order, table.Keys) && out == TrimmedNames(order)
  {
    out := [];
    ghost var order: seq<string> := [];
    var rest := table.Keys;
    while rest != {}
      invariant forall k :: k in table.Keys <==> k in rest || k in order
      invariant forall k :: k in rest ==> k !in order
      invariant forall i, j :: 0 <= i < j < |order| ==> order[i] != order[j]
      invariant |order| + |rest| == |table|
      invariant out == TrimmedNames(order)
      decreases rest
    {
      var s :| s in rest;
      out := out + [TrimPrefix(s, StatusPrefix)];
      order := order + [s];
      rest := rest - {s};
    }
    assert Enumerates(order, table.Keys);
  }

  // ---------------------------------------------------------------------
  // Properties

  /** No flag value means no statuses to wait for, and no error. */
  lemma StatusesOfNothing(table: StatusTable)
    ensures Statuses(table, []) == Success([])
  {
  }

  /** Only the first unknown string decides the error; everything before it was valid. */
  lemma ErrorNamesFirstUnknown(table: StatusTable, ss: seq<string>, i: int)
    requires FirstUnknown(table, ss, i)
    ensures Statuses(table, ss) == Failure(BadStatus(ss[i]))
  {
  }

  /** Validating a concatenation is validating the parts: the outputs are
      concatenated, and the first part's error comes first. */
  lemma {:induction false} StatusesAppend(table: StatusTable, a: seq<string>, b: seq<string>)
    ensures Statuses(table, a + b) ==
      match Statuses(table, a)
      case Failure(e) => Failure(e)
      case Success(va) => Continue(va, Statuses(table, b))
  {
    if a == [] {
      assert a + b == b;
      ContinueNothing(Statuses(table, b));
    } else {
      assert (a + b)[0] == a[0];
      assert (a + b)[1..] == a[1..] + b;
      StatusesAppend(table, a[1..], b);
      if Known(table, a[0]) {
        var head := [table[StatusPrefix + a[0]]];
        match Statuses(table, a[1..])
        case Failure(e) =>
        case Success(va) =>
          match Statuses(table, b)
          case Failure(e) =>
          case Success(vb) =>
            assert head + (va + vb) == (head + va) + vb;
      }
    }
  }

  /** Duplicates are kept: each string adds exactly one status. */
  lemma DuplicatesKept(table: StatusTable, s: string, n: nat)
    requires Known(table, s)
    ensures Statuses(table, seq(n, _ => s)) == Success(seq(n, _ => table[StatusPrefix + s]))
  {
    var ss := seq(n, _ => s);
    var r := Statuses(table, ss);
    assert forall i :: 0 <= i < |ss| ==> Known(table, ss[i]);
    assert r.value == seq(n, _ => table[StatusPrefix + s]);
  }

  /** Every name `availableStatuses` derives from a prefixed key is accepted
      back by `makeStatuses`, as the status of that key. */
  lemma RoundTrip(table: StatusTable, k: string)
    requires k in table && HasPrefix(k, StatusPrefix)
    ensures Statuses(table, [TrimPrefix(k, StatusPrefix)]) == Success([table[k]])
  {
    var ss := [TrimPrefix(k, StatusPrefix)];
    assert Known(table, ss[0]);
    assert Statuses(table, ss).value == [table[k]];
  }

  /** Passing the whole help list back as `--wait-status` succeeds, yielding the
      status of each key in the same order, when every key carries the prefix. */
  lemma OfferedNamesAccepted(table: StatusTable, order: seq<string>)
    requires Enumerates(order, table.Keys)
    requires forall k :: k in table ==> HasPrefix(k, StatusPrefix)
    ensures Statuses(table, TrimmedNames(order)).Success?
    ensures forall i :: 0 <= i < |order| ==> Statuses(table, TrimmedNames(order)).value[i] == table[order[i]]
  {
  }

  /** When every key carries the prefix, the help list names no status twice. */
  lemma OfferedNamesDistinct(table: StatusTable, order: seq<string>)
    requires Enumerates(order, table.Keys)
    requires forall k :: k in table ==> HasPrefix(k, StatusPrefix)
    ensures forall i, j :: 0 <= i < j < |order| ==> TrimmedNames(order)[i] != TrimmedNames(order)[j]
  {
    forall i, j | 0 <= i < j < |order|
      ensures TrimmedNames(order)[i] != TrimmedNames(order)[j]
    {
      if TrimmedNames(order)[i] == TrimmedNames(order)[j] {
        TrimPrefixInjective(order[i], order[j], StatusPrefix);
      }
    }
  }

  /** A key without the prefix is offered unchanged. */
  lemma UnprefixedKeyOfferedUnchanged(order: seq<string>, i: int)
    requires 0 <= i < |order| && !HasPrefix(order[i], StatusPrefix)
    ensures TrimmedNames(order)[i] == order[i]
  {
  }

  /** A key without the prefix is offered under its own name, which
      `makeStatuses` rejects unless the table also holds that name with the prefix. */
  lemma UnprefixedNameRejected(table: StatusTable, k: string)
    requires k in table && !HasPrefix(k, StatusPrefix) && StatusPrefix + k !in table
    ensures Statuses(table, [TrimPrefix(k, StatusPrefix)]) == Failure(BadStatus(k))
  {
    assert FirstUnknown(table, [k], 0);
    ErrorNamesFirstUnknown(table, [k], 0);
  }
}
