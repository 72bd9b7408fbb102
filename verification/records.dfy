/** The `localStorage`-backed record lists of src/utils/candidateStorage.ts and
    src/utils/interviewStorage.ts, abstracted as a sequence of records, each
    carrying a string `id` given by `key`. JSON serialisation and the revival
    of dates are the identity here. */
module Records {
  import opened Wrappers
  import opened Seqs

  /** What reading a storage key yields: nothing (`null`, or the empty string,
      which is falsy too), text that does not parse back into records, or a
      list of records. */
  datatype Stored<T> = Absent | Unreadable | Parsed(records: seq<T>)

  /** `getCandidateRecords()` / `getScheduledInterviews()`: missing or
      unreadable storage reads as the empty list. */
  function Load<T>(s: Stored<T>): (r: seq<T>)
    ensures !s.Parsed? ==> r == []
    ensures s.Parsed? ==> r == s.records
  {
    if s.Parsed? then s.records else []
  }

  /** The test `x => x.id === k`. */
  function KeyIs<T>(key: T -> string, k: string): T -> bool {
    x => key(x) == k
  }

  /** The test `x => x.id !== k`. */
  function KeyIsNot<T>(key: T -> string, k: string): T -> bool {
    x => key(x) != k
  }

  /** `rs.filter(x => x.id === k)`. */
  function Matching<T>(rs: seq<T>, key: T -> string, k: string): seq<T>
  {
    Filter(rs, KeyIs(key, k))
  }

  /** `rs.filter(x => x.id !== k)`. */
  function Others<T>(rs: seq<T>, key: T -> string, k: string): seq<T>
  {
    Filter(rs, KeyIsNot(key, k))
  }

  /** No two records share a key. */
  ghost predicate UniqueKeys<T>(rs: seq<T>, key: T -> string) {
    forall i, j :: 0 <= i < j < |rs| ==> key(rs[i]) != key(rs[j])
  }

  /** `rs.findIndex(x => x.id === k)`, with -1 as None. */
  function FirstIndex<T>(rs: seq<T>, key: T -> string, k: string): (r: Option<nat>)
    ensures r.None? <==> forall j :: 0 <= j < |rs| ==> key(rs[j]) != k
    ensures r.Some? ==> r.value < |rs| && key(rs[r.value]) == k
                        && forall j :: 0 <= j < r.value ==> key(rs[j]) != k
    decreases |rs|
  {
    if |rs| == 0 then None
    else if key(rs[0]) == k then Some(0)
    else match FirstIndex(rs[1..], key, k)
      case None => None
      case Some(i) => Some(i + 1)
  }

  /** The index whose record has the key and whose predecessors do not is
      the first index. */
  lemma {:induction false} FirstIndexUnique<T>(rs: seq<T>, key: T -> string, k: string, i: nat)
    requires i < |rs| && key(rs[i]) == k
    requires forall j :: 0 <= j < i ==> key(rs[j]) != k
    ensures FirstIndex(rs, key, k) == Some(i)
    decreases i
  {
    if i > 0 {
      FirstIndexUnique(rs[1..], key, k, i - 1);
    }
  }

  /** `rs.find(x => x.id === k) || null`: the first of the records with key
      `k`, and None exactly when there is none. */
  function FindFirst<T>(rs: seq<T>, key: T -> string, k: string): (r: Option<T>)
    ensures r.None? <==> Matching(rs, key, k) == []
    ensures r.Some? ==> r.value == Matching(rs, key, k)[0]
    decreases |rs|
  {
    if |rs| == 0 then None
    else if key(rs[0]) == k then Some(rs[0])
    else FindFirst(rs[1..], key, k)
  }

  /** The record found is the one `findIndex` points at. */
  lemma {:induction false} FindFirstAtFirstIndex<T>(rs: seq<T>, key: T -> string, k: string)
    ensures FindFirst(rs, key, k).None? <==> FirstIndex(rs, key, k).None?
    ensures FirstIndex(rs, key, k).Some? ==>
              FindFirst(rs, key, k) == Some(rs[FirstIndex(rs, key, k).value])
    decreases |rs|
  {
    if |rs| > 0 && key(rs[0]) != k {
      FindFirstAtFirstIndex(rs[1..], key, k);
    }
  }

  /** `filter(x => x.id !== r.id)` followed by `push(r)`. */
  function Upsert<T>(rs: seq<T>, r: T, key: T -> string): (u: seq<T>)
    ensures |u| > 0 && u[|u| - 1] == r
    ensures forall i :: 0 <= i < |u| - 1 ==> key(u[i]) != key(r)
  {
    Others(rs, key, key(r)) + [r]
  }

  /** After an upsert the saved record is the only one with its key. */
  lemma UpsertSingleMatch<T>(rs: seq<T>, r: T, key: T -> string)
    ensures Matching(Upsert(rs, r, key), key, key(r)) == [r]
  {
    var o := Others(rs, key, key(r));
    FilterAppend(o, [r], KeyIs(key, key(r)));
    FilterNonePass(o, KeyIs(key, key(r)));
  }

  /** Filtering twice by the same predicate is filtering once. */
  lemma FilterIdempotent<T>(s: seq<T>, p: T -> bool)
    ensures Filter(Filter(s, p), p) == Filter(s, p)
  {
    FilterAllPass(Filter(s, p), p);
  }

  /** An upsert keeps every other record, in its original order. */
  lemma UpsertKeepsOthers<T>(rs: seq<T>, r: T, key: T -> string)
    ensures Others(Upsert(rs, r, key), key, key(r)) == Others(rs, key, key(r))
  {
    var o := Others(rs, key, key(r));
    FilterAppend(o, [r], KeyIsNot(key, key(r)));
    FilterIdempotent(rs, KeyIsNot(key, key(r)));
  }

  /** Filtering keeps keys unique. */
  lemma {:induction false} FilterKeepsUnique<T>(rs: seq<T>, key: T -> string, p: T -> bool)
    requires UniqueKeys(rs, key)
    ensures UniqueKeys(Filter(rs, p), key)
    decreases |rs|
  {
    if |rs| > 0 {
      var tail := rs[1..];
      assert UniqueKeys(tail, key) by {
        forall i, j | 0 <= i < j < |tail| ensures key(tail[i]) != key(tail[j]) {
          assert tail[i] == rs[i + 1] && tail[j] == rs[j + 1];
        }
      }
      FilterKeepsUnique(tail, key, p);
      if p(rs[0]) {
        var f := Filter(tail, p);
        var g := [rs[0]] + f;
        forall i, j | 0 <= i < j < |g| ensures key(g[i]) != key(g[j]) {
          if i == 0 {
            FilterMembers(tail, p, g[j]);
            var m :| 0 <= m < |tail| && tail[m] == g[j];
            assert rs[m + 1] == g[j];
          } else {
            assert g[i] == f[i - 1] && g[j] == f[j - 1];
          }
        }
      }
    }
  }

  /** An upsert keeps keys unique. */
  lemma UpsertKeepsUnique<T>(rs: seq<T>, r: T, key: T -> string)
    requires UniqueKeys(rs, key)
    ensures UniqueKeys(Upsert(rs, r, key), key)
  {
    FilterKeepsUnique(rs, key, KeyIsNot(key, key(r)));
  }

  /** `rs[i].field = ...` on the first record with key `k`, when there is
      one; otherwise the list is unchanged. */
  function UpdateFirst<T>(rs: seq<T>, key: T -> string, k: string, f: T -> T): (u: seq<T>)
    ensures |u| == |rs|
    ensures FirstIndex(rs, key, k).None? ==> u == rs
    ensures FirstIndex(rs, key, k).Some? ==>
              u[FirstIndex(rs, key, k).value] == f(rs[FirstIndex(rs, key, k).value])
    ensures forall j :: 0 <= j < |rs| && Some(j) != FirstIndex(rs, key, k) ==> u[j] == rs[j]
  {
    match FirstIndex(rs, key, k)
    case None => rs
    case Some(i) => rs[i := f(rs[i])]
  }

  /** The records left by removing a key are those with another key. */
  lemma OthersMembers<T>(rs: seq<T>, key: T -> string, k: string, x: T)
    ensures x in Others(rs, key, k) <==> x in rs && key(x) != k
  {
    FilterMembers(rs, KeyIsNot(key, k), x);
  }

  /** Removing a key leaves no record with it. */
  lemma RemovedKeyGone<T>(rs: seq<T>, key: T -> string, k: string)
    ensures Matching(Others(rs, key, k), key, k) == []
  {
    FilterNonePass(Others(rs, key, k), KeyIs(key, k));
  }

  /** Removing a key no record has changes nothing. */
  lemma RemoveAbsentKey<T>(rs: seq<T>, key: T -> string, k: string)
    requires FirstIndex(rs, key, k).None?
    ensures Others(rs, key, k) == rs
  {
    FilterAllPass(rs, KeyIsNot(key, k));
  }

  /** Removing a key twice is removing it once. */
  lemma RemoveIdempotent<T>(rs: seq<T>, key: T -> string, k: string)
    ensures Others(Others(rs, key, k), key, k) == Others(rs, key, k)
  {
    FilterIdempotent(rs, KeyIsNot(key, k));
  }
}
