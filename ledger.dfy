/** Queries over a table (a map from id to row): the rows a `findAll` returns,
    in the unspecified order a query without ORDER BY gives them, and the sums
    the controllers fold over those rows. */
module Ledger {
  import opened Records

  /** The rows of `m` whose ids are in `S`, as a multiset (order forgotten). */
  ghost function ValuesOf<T>(m: map<int, T>, S: set<int>): multiset<T>
    requires S <= m.Keys
    decreases S
  {
    if S == {} then multiset{} else
      NonEmptyHasElement(S);
      var k :| k in S;
      multiset{m[k]} + ValuesOf(m, S - {k})
  }

  lemma NonEmptyHasElement(S: set<int>)
    requires S != {}
    ensures exists k :: k in S
  {
    if forall k :: k !in S {
      assert false;
    }
  }

  lemma {:induction false} ValuesOfRemove<T>(m: map<int, T>, S: set<int>, k: int)
    requires S <= m.Keys && k in S
    ensures ValuesOf(m, S) == multiset{m[k]} + ValuesOf(m, S - {k})
    decreases S
  {
    var j :| j in S && ValuesOf(m, S) == multiset{m[j]} + ValuesOf(m, S - {j});
    if j != k {
      ValuesOfRemove(m, S - {j}, k);
      ValuesOfRemove(m, S - {k}, j);
      assert S - {j} - {k} == S - {k} - {j};
    }
  }

  /** A row is among the selected rows exactly when some selected id maps to it. */
  lemma {:induction false} ValuesOfMember<T>(m: map<int, T>, S: set<int>, x: T)
    requires S <= m.Keys
    ensures x in ValuesOf(m, S) <==> exists k :: k in S && m[k] == x
    decreases S
  {
    if S != {} {
      NonEmptyHasElement(S);
      var k :| k in S;
      ValuesOfRemove(m, S, k);
      ValuesOfMember(m, S - {k}, x);
    }
  }

  /** `findAll` over the rows whose ids are in `S`: every such row once, in some order. */
  method Enumerate<T>(m: map<int, T>, S: set<int>) returns (rows: seq<T>)
    requires S <= m.Keys
    ensures multiset(rows) == ValuesOf(m, S)
  {
    rows := [];
    var todo := S;
    ghost var done: set<int> := {};
    while todo != {}
      invariant todo + done == S && todo !! done
      invariant multiset(rows) == ValuesOf(m, done)
      decreases todo
    {
      NonEmptyHasElement(todo);
      var k :| k in todo;
      ValuesOfRemove(m, done + {k}, k);
      assert done + {k} - {k} == done;
      rows := rows + [m[k]];
      todo := todo - {k};
      done := done + {k};
    }
  }

  /** A row is among the enumerated rows exactly when some selected id maps to it. */
  lemma EnumeratedMember<T>(m: map<int, T>, S: set<int>, rows: seq<T>, x: T)
    requires S <= m.Keys && multiset(rows) == ValuesOf(m, S)
    ensures x in rows <==> exists k :: k in S && m[k] == x
  {
    assert x in rows <==> x in multiset(rows);
    ValuesOfMember(m, S, x);
  }

  /** The ids of usage rows, as a set. */
  function LogIds(rows: seq<UsageLog>): set<int> {
    set i | 0 <= i < |rows| :: rows[i].id
  }

  /** When every row of `m` is stored under its own id, an enumeration of `S`
      carries exactly the ids in `S`. */
  lemma EnumeratedIds(m: map<int, UsageLog>, S: set<int>, rows: seq<UsageLog>)
    requires S <= m.Keys
    requires forall k :: k in m ==> m[k].id == k
    requires multiset(rows) == ValuesOf(m, S)
    ensures LogIds(rows) == S
  {
    forall k | k in S ensures k in LogIds(rows) {
      ValuesOfMember(m, S, m[k]);
      assert m[k] in multiset(rows);
      var i :| 0 <= i < |rows| && rows[i] == m[k];
    }
    forall i | 0 <= i < |rows| ensures rows[i].id in S {
      assert rows[i] in multiset(rows);
      ValuesOfMember(m, S, rows[i]);
    }
  }

  /** A position of `x` in `b`, given that `x` occurs there. */
  lemma IndexOf<T>(b: seq<T>, x: T) returns (j: int)
    requires x in multiset(b)
    ensures 0 <= j < |b| && b[j] == x
  {
    assert x in b;
    j :| 0 <= j < |b| && b[j] == x;
  }

  lemma TailMultiset<T>(a: seq<T>)
    requires a != []
    ensures multiset(a[1..]) == multiset(a) - multiset{a[0]}
  {
    assert a == [a[0]] + a[1..];
  }

  lemma RemoveAtMultiset<T>(b: seq<T>, j: int)
    requires 0 <= j < |b|
    ensures multiset(b[..j] + b[j + 1..]) == multiset(b) - multiset{b[j]}
  {
    assert b == b[..j] + [b[j]] + b[j + 1..];
  }

  /** Which rows a running duration sum keeps. */
  datatype Keep = All | OfType(usageType: UsageType) | OnDate(day: int)

  predicate Kept(keep: Keep, log: UsageLog) {
    match keep
    case All => true
    case OfType(t) => log.usageType == t
    case OnDate(d) => DateOf(log.timestamp) == d
  }

  function Weight(keep: Keep, log: UsageLog): real {
    if Kept(keep, log) then log.duration else 0.0
  }

  /** The sum of the durations of the kept rows. */
  function DurationSum(logs: seq<UsageLog>, keep: Keep): real {
    if logs == [] then 0.0 else Weight(keep, logs[0]) + DurationSum(logs[1..], keep)
  }

  lemma {:induction false} DurationSumAppend(a: seq<UsageLog>, b: seq<UsageLog>, keep: Keep)
    ensures DurationSum(a + b, keep) == DurationSum(a, keep) + DurationSum(b, keep)
  {
    if a != [] {
      assert (a + b)[0] == a[0];
      assert (a + b)[1..] == a[1..] + b;
      DurationSumAppend(a[1..], b, keep);
    } else {
      assert a + b == b;
    }
  }

  /** The sum does not depend on the order the rows come in. */
  lemma DurationSumRemoveAt(b: seq<UsageLog>, j: int, keep: Keep)
    requires 0 <= j < |b|
    ensures DurationSum(b, keep) == Weight(keep, b[j]) + DurationSum(b[..j] + b[j + 1..], keep)
  {
    assert b == b[..j] + ([b[j]] + b[j + 1..]);
    DurationSumAppend(b[..j], [b[j]] + b[j + 1..], keep);
    DurationSumAppend([b[j]], b[j + 1..], keep);
    DurationSumAppend(b[..j], b[j + 1..], keep);
    assert [b[j]][1..] == [];
  }

  lemma {:induction false} DurationSumPermutation(a: seq<UsageLog>, b: seq<UsageLog>, keep: Keep)
    requires multiset(a) == multiset(b)
    ensures DurationSum(a, keep) == DurationSum(b, keep)
    decreases |a|
  {
    if a == [] {
      assert |b| == |multiset(b)| == 0;
    } else {
      var x := a[0];
      var j := IndexOf(b, x);
      var rest := b[..j] + b[j + 1..];
      TailMultiset(a);
      RemoveAtMultiset(b, j);
      DurationSumPermutation(a[1..], rest, keep);
      DurationSumRemoveAt(b, j, keep);
    }
  }


  lemma {:induction false} DurationSumNonNegative(logs: seq<UsageLog>, keep: Keep)
    requires forall i :: 0 <= i < |logs| ==> logs[i].duration >= 0.0
    ensures DurationSum(logs, keep) >= 0.0
  {
    if logs != [] {
      DurationSumNonNegative(logs[1..], keep);
    }
  }

  /** A sum over no kept rows is 0. */
  lemma {:induction false} DurationSumNoneKept(logs: seq<UsageLog>, keep: Keep)
    requires forall i :: 0 <= i < |logs| ==> !Kept(keep, logs[i])
    ensures DurationSum(logs, keep) == 0.0
  {
    if logs != [] {
      DurationSumNoneKept(logs[1..], keep);
    }
  }

  /** The sum of `amountDue` over invoice rows. */
  function AmountDueSum(rows: seq<Invoice>): real {
    if rows == [] then 0.0 else rows[0].amountDue + AmountDueSum(rows[1..])
  }

  lemma {:induction false} AmountDueSumAppend(a: seq<Invoice>, b: seq<Invoice>)
    ensures AmountDueSum(a + b) == AmountDueSum(a) + AmountDueSum(b)
  {
    if a != [] {
      assert (a + b)[0] == a[0];
      assert (a + b)[1..] == a[1..] + b;
      AmountDueSumAppend(a[1..], b);
    } else {
      assert a + b == b;
    }
  }

  lemma AmountDueSumRemoveAt(b: seq<Invoice>, j: int)
    requires 0 <= j < |b|
    ensures AmountDueSum(b) == b[j].amountDue + AmountDueSum(b[..j] + b[j + 1..])
  {
    assert b == b[..j] + ([b[j]] + b[j + 1..]);
    AmountDueSumAppend(b[..j], [b[j]] + b[j + 1..]);
    AmountDueSumAppend([b[j]], b[j + 1..]);
    AmountDueSumAppend(b[..j], b[j + 1..]);
    assert [b[j]][1..] == [];
  }

  lemma {:induction false} AmountDueSumPermutation(a: seq<Invoice>, b: seq<Invoice>)
    requires multiset(a) == multiset(b)
    ensures AmountDueSum(a) == AmountDueSum(b)
    decreases |a|
  {
    if a == [] {
      assert |b| == |multiset(b)| == 0;
    } else {
      var x := a[0];
      var j := IndexOf(b, x);
      var rest := b[..j] + b[j + 1..];
      TailMultiset(a);
      RemoveAtMultiset(b, j);
      AmountDueSumPermutation(a[1..], rest);
      AmountDueSumRemoveAt(b, j);
    }
  }


  predicate SortedByTime(s: seq<UsageLog>) {
    forall i, j :: 0 <= i < j < |s| ==> s[i].timestamp <= s[j].timestamp
  }

  function InsertByTime(x: UsageLog, s: seq<UsageLog>): (r: seq<UsageLog>)
    requires SortedByTime(s)
    ensures SortedByTime(r) && multiset(r) == multiset(s) + multiset{x}
  {
    if s == [] || x.timestamp <= s[0].timestamp then [x] + s
    else
      var r' := InsertByTime(x, s[1..]);
      assert s == [s[0]] + s[1..];
      InsertedAfterHead(s[0], x, s[1..], r');
      [s[0]] + r'
  }

  lemma InsertedAfterHead(h: UsageLog, x: UsageLog, t: seq<UsageLog>, r': seq<UsageLog>)
    requires SortedByTime([h] + t) && h.timestamp < x.timestamp
    requires SortedByTime(r') && multiset(r') == multiset(t) + multiset{x}
    ensures SortedByTime([h] + r')
  {
    forall k | 0 <= k < |r'| ensures h.timestamp <= r'[k].timestamp {
      assert r'[k] in multiset(r');
      if r'[k] != x {
        assert r'[k] in multiset(t);
        var i :| 0 <= i < |t| && t[i] == r'[k];
        assert ([h] + t)[0] == h && ([h] + t)[i + 1] == t[i];
      }
    }
    var r := [h] + r';
    forall i, j | 0 <= i < j < |r| ensures r[i].timestamp <= r[j].timestamp {
      if i > 0 {
        assert r[i] == r'[i - 1] && r[j] == r'[j - 1];
      } else {
        assert r[j] == r'[j - 1];
      }
    }
  }

  /** ORDER BY timestamp ASC: a sorted rearrangement of the rows (ties in some order). */
  function SortByTime(s: seq<UsageLog>): (r: seq<UsageLog>)
    ensures SortedByTime(r) && multiset(r) == multiset(s)
  {
    if s == [] then [] else
      assert s == [s[0]] + s[1..];
      InsertByTime(s[0], SortByTime(s[1..]))
  }
}
