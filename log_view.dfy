/**
 * The per-machine log view: the store's log records for one machine,
 * sorted ascending by timestamp with ties kept in insertion order.
 */
module LogView {
  import opened Store

  /** The records of `logs` that belong to machine `id`, in their original order. */
  function ForMachine(logs: seq<LogRecord>, id: string): (r: seq<LogRecord>)
    ensures |r| <= |logs|
    ensures forall x :: x in r <==> x in logs && x.machineId == id
  {
    if logs == [] then []
    else (if logs[0].machineId == id then [logs[0]] else []) + ForMachine(logs[1..], id)
  }

  /** The records of `s` whose timestamp is `t`, in their order in `s`. */
  function WithTime(s: seq<LogRecord>, t: int): seq<LogRecord>
  {
    if s == [] then []
    else (if s[0].timestamp == t then [s[0]] else []) + WithTime(s[1..], t)
  }

  /** Non-decreasing in timestamp. */
  predicate Sorted(s: seq<LogRecord>)
  {
    forall i, j :: 0 <= i < j < |s| ==> s[i].timestamp <= s[j].timestamp
  }

  /** Insert `r` before the first record whose timestamp is not smaller than its own. */
  function Insert(r: LogRecord, s: seq<LogRecord>): (res: seq<LogRecord>)
    ensures multiset(res) == multiset(s) + multiset{r}
    ensures res[0] == r || res[0] == s[0]
  {
    if s == [] || r.timestamp <= s[0].timestamp then [r] + s
    else
      assert s == [s[0]] + s[1..];
      [s[0]] + Insert(r, s[1..])
  }

  /** A record no later than the head of a sorted sequence may be put in front of it. */
  lemma SortedCons(x: LogRecord, s: seq<LogRecord>)
    requires Sorted(s) && (s == [] || x.timestamp <= s[0].timestamp)
    ensures Sorted([x] + s)
  {
    var t := [x] + s;
    forall i, j | 0 <= i < j < |t|
      ensures t[i].timestamp <= t[j].timestamp
    {
      if i == 0 && j > 1 {
        assert t[j] == s[j - 1] && s[0].timestamp <= s[j - 1].timestamp;
      }
    }
  }

  /** Inserting into a sorted sequence keeps it sorted. */
  lemma {:induction false} InsertSorted(r: LogRecord, s: seq<LogRecord>)
    requires Sorted(s)
    ensures Sorted(Insert(r, s))
  {
    if s == [] || r.timestamp <= s[0].timestamp {
      SortedCons(r, s);
    } else {
      assert Sorted(s[1..]);
      InsertSorted(r, s[1..]);
      SortedCons(s[0], Insert(r, s[1..]));
    }
  }

  /** A stable sort by timestamp (insertion sort). */
  function SortByTime(s: seq<LogRecord>): (r: seq<LogRecord>)
    ensures Sorted(r)
    ensures multiset(r) == multiset(s)
  {
    if s == [] then []
    else
      assert s == [s[0]] + s[1..];
      InsertSorted(s[0], SortByTime(s[1..]));
      Insert(s[0], SortByTime(s[1..]))
  }

  /** The selector `logs.filter(p => p.machine_id === id).sort((a, b) => a.timestamp - b.timestamp)`. */
  function MachineLogs(logs: seq<LogRecord>, id: string): (v: seq<LogRecord>)
    ensures Sorted(v)
    ensures multiset(v) == multiset(ForMachine(logs, id))
  {
    SortByTime(ForMachine(logs, id))
  }

  lemma {:induction false} ForMachineAppend(a: seq<LogRecord>, b: seq<LogRecord>, id: string)
    ensures ForMachine(a + b, id) == ForMachine(a, id) + ForMachine(b, id)
  {
    if a == [] {
      assert a + b == b;
    } else {
      assert (a + b)[1..] == a[1..] + b;
      ForMachineAppend(a[1..], b, id);
    }
  }

  /** Inserting `r` only adds `r` to the records that share its timestamp, at their front. */
  lemma {:induction false} InsertWithTime(r: LogRecord, s: seq<LogRecord>, t: int)
    ensures WithTime(Insert(r, s), t) == (if r.timestamp == t then [r] else []) + WithTime(s, t)
  {
    if s == [] || r.timestamp <= s[0].timestamp {
      WithTimeCons(r, s, t);
    } else {
      var rest := Insert(r, s[1..]);
      WithTimeCons(s[0], rest, t);
      InsertWithTime(r, s[1..], t);
      WithTimeCons(s[0], s[1..], t);
      assert [s[0]] + s[1..] == s;
    }
  }

  lemma WithTimeCons(x: LogRecord, s: seq<LogRecord>, t: int)
    ensures WithTime([x] + s, t) == (if x.timestamp == t then [x] else []) + WithTime(s, t)
  {
    assert ([x] + s)[1..] == s;
  }

  /** The sort keeps the relative order of records with equal timestamps. */
  lemma {:induction false} SortStable(s: seq<LogRecord>, t: int)
    ensures WithTime(SortByTime(s), t) == WithTime(s, t)
  {
    if s != [] {
      SortStable(s[1..], t);
      InsertWithTime(s[0], SortByTime(s[1..]), t);
    }
  }

  lemma {:induction false} WithTimeHead(s: seq<LogRecord>)
    requires s != []
    ensures WithTime(s, s[0].timestamp) != [] && WithTime(s, s[0].timestamp)[0] == s[0]
  {
  }

  lemma {:induction false} WithTimeMember(s: seq<LogRecord>, t: int)
    requires WithTime(s, t) != []
    ensures exists i :: 0 <= i < |s| && s[i].timestamp == t
  {
    if s[0].timestamp != t {
      WithTimeMember(s[1..], t);
      var i :| 0 <= i < |s[1..]| && s[1..][i].timestamp == t;
      assert s[i + 1].timestamp == t;
    } else {
      assert s[0].timestamp == t;
    }
  }

  /**
   * A sorted sequence is determined by its per-timestamp subsequences, so there is
   * exactly one stable sort of a given input.
   */
  lemma {:induction false} SortedUnique(a: seq<LogRecord>, b: seq<LogRecord>)
    requires Sorted(a) && Sorted(b)
    requires forall t :: WithTime(a, t) == WithTime(b, t)
    ensures a == b
  {
    if a == [] && b == [] {
    } else if a == [] {
      WithTimeHead(b);
    } else if b == [] {
      WithTimeHead(a);
    } else {
      var ta, tb := a[0].timestamp, b[0].timestamp;
      WithTimeHead(a);
      WithTimeHead(b);
      WithTimeMember(b, ta);
      WithTimeMember(a, tb);
      assert ta == tb;
      assert WithTime(a, ta)[0] == WithTime(b, ta)[0];
      assert a[0] == b[0];
      forall t
        ensures WithTime(a[1..], t) == WithTime(b[1..], t)
      {
        WithTimeTail(a, t);
        WithTimeTail(b, t);
      }
      SortedTail(a);
      SortedTail(b);
      SortedUnique(a[1..], b[1..]);
      assert a == [a[0]] + a[1..];
      assert b == [b[0]] + b[1..];
    }
  }

  lemma WithTimeTail(s: seq<LogRecord>, t: int)
    requires s != []
    ensures WithTime(s[1..], t) == if s[0].timestamp == t then WithTime(s, t)[1..] else WithTime(s, t)
  {
  }

  lemma SortedTail(s: seq<LogRecord>)
    requires s != [] && Sorted(s)
    ensures Sorted(s[1..])
  {
  }

  /** The view holds exactly this machine's records. */
  lemma ViewMembership(logs: seq<LogRecord>, id: string, x: LogRecord)
    ensures x in MachineLogs(logs, id) <==> x in logs && x.machineId == id
  {
    var f := ForMachine(logs, id);
    assert x in MachineLogs(logs, id) <==> x in multiset(MachineLogs(logs, id));
    assert x in f <==> x in multiset(f);
  }

  /** The view is a permutation of the filtered subsequence. */
  lemma ViewPermutation(logs: seq<LogRecord>, id: string)
    ensures multiset(MachineLogs(logs, id)) == multiset(ForMachine(logs, id))
  {
  }

  /** The view is ascending by timestamp, and equal timestamps keep their insertion order. */
  lemma ViewOrdered(logs: seq<LogRecord>, id: string)
    ensures Sorted(MachineLogs(logs, id))
    ensures forall t :: WithTime(MachineLogs(logs, id), t) == WithTime(ForMachine(logs, id), t)
  {
    forall t
      ensures WithTime(MachineLogs(logs, id), t) == WithTime(ForMachine(logs, id), t)
    {
      SortStable(ForMachine(logs, id), t);
    }
  }

  /** The view is the one and only stable ascending ordering of the machine's records. */
  lemma ViewCharacterized(logs: seq<LogRecord>, id: string, v: seq<LogRecord>)
    ensures v == MachineLogs(logs, id) ==>
              Sorted(v) && forall t :: WithTime(v, t) == WithTime(ForMachine(logs, id), t)
    ensures Sorted(v) && (forall t :: WithTime(v, t) == WithTime(ForMachine(logs, id), t)) ==>
              v == MachineLogs(logs, id)
  {
    var f, m := ForMachine(logs, id), MachineLogs(logs, id);
    ViewOrdered(logs, id);
    if v == m {
      assert Sorted(v) && forall t :: WithTime(v, t) == WithTime(f, t);
    }
    if Sorted(v) && forall t :: WithTime(v, t) == WithTime(f, t) {
      forall t
        ensures WithTime(v, t) == WithTime(m, t)
      {
        assert WithTime(v, t) == WithTime(f, t);
      }
      SortedUnique(v, m);
      assert v == m;
    }
  }

  lemma {:induction false} ForMachineNone(s: seq<LogRecord>, id: string)
    requires forall x :: x in s ==> x.machineId != id
    ensures ForMachine(s, id) == []
  {
    if s != [] {
      assert s[0] in s;
      ForMachineNone(s[1..], id);
    }
  }

  /** Appending records of other machines leaves this machine's view unchanged. */
  lemma ForeignAppend(logs: seq<LogRecord>, extra: seq<LogRecord>, id: string)
    requires forall x :: x in extra ==> x.machineId != id
    ensures MachineLogs(logs + extra, id) == MachineLogs(logs, id)
  {
    ForMachineAppend(logs, extra, id);
    ForMachineNone(extra, id);
    assert ForMachine(logs, id) + [] == ForMachine(logs, id);
  }
}
