/**
 CookieCache (net/cookies/cookie_cache.cc): cookies per (url, name), kept in sets
 ordered by one comparator and compared under a finer one.
 */
module CookieCache {
  import opened Prelude

  /** `rest` stands for the attributes neither comparator looks at. */
  datatype Cookie = Cookie(domain: string, path: string, name: string, value: string, rest: int)

  datatype Tuple = Tuple(domain: string, path: string, name: string, value: string)

  datatype Key = Key(url: string, name: string)

  function Tup(c: Cookie): Tuple {
    Tuple(c.domain, c.path, c.name, c.value)
  }

  function Tuples(s: seq<Cookie>): set<Tuple> {
    set c | c in s :: Tup(c)
  }

  predicate SameKey(l: Cookie, r: Cookie) {
    l.domain == r.domain && l.path == r.path && l.name == r.name
  }

  // ---- the two orders ----

  /** Byte-wise order of std::string. */
  predicate StrLess(a: string, b: string) {
    if b == [] then false
    else if a == [] then true
    else a[0] < b[0] || (a[0] == b[0] && StrLess(a[1..], b[1..]))
  }

  /** CookieComparator. */
  predicate KeyLess(l: Cookie, r: Cookie) {
    if l.domain != r.domain then StrLess(l.domain, r.domain)
    else if l.path != r.path then StrLess(l.path, r.path)
    else if l.name != r.name then StrLess(l.name, r.name)
    else false
  }

  /** CookieAndValueComparator. */
  predicate ValueLess(l: Cookie, r: Cookie) {
    if l.domain != r.domain then StrLess(l.domain, r.domain)
    else if l.path != r.path then StrLess(l.path, r.path)
    else if l.name != r.name then StrLess(l.name, r.name)
    else if l.value != r.value then StrLess(l.value, r.value)
    else false
  }

  lemma {:induction false} StrLessTotal(a: string, b: string)
    ensures a != b <==> StrLess(a, b) || StrLess(b, a)
    ensures !(StrLess(a, b) && StrLess(b, a))
  {
    if a != [] && b != [] && a[0] == b[0] {
      StrLessTotal(a[1..], b[1..]);
      assert a == [a[0]] + a[1..] && b == [b[0]] + b[1..];
    }
  }

  lemma {:induction false} StrLessTransitive(a: string, b: string, c: string)
    requires StrLess(a, b) && StrLess(b, c)
    ensures StrLess(a, c)
  {
    if a != [] && a[0] == b[0] && b[0] == c[0] {
      StrLessTransitive(a[1..], b[1..], c[1..]);
    }
  }

  lemma ValueLessTotal(l: Cookie, r: Cookie)
    ensures Tup(l) != Tup(r) <==> ValueLess(l, r) || ValueLess(r, l)
    ensures !(ValueLess(l, r) && ValueLess(r, l))
    ensures !SameKey(l, r) <==> KeyLess(l, r) || KeyLess(r, l)
    ensures !(KeyLess(l, r) && KeyLess(r, l))
    ensures KeyLess(l, r) ==> ValueLess(l, r)
  {
    StrLessTotal(l.domain, r.domain);
    StrLessTotal(l.path, r.path);
    StrLessTotal(l.name, r.name);
    StrLessTotal(l.value, r.value);
  }

  lemma ValueLessTransitive(a: Cookie, b: Cookie, c: Cookie)
    ensures ValueLess(a, b) && ValueLess(b, c) ==> ValueLess(a, c)
    ensures KeyLess(a, b) && KeyLess(b, c) ==> KeyLess(a, c)
  {
    if StrLess(a.domain, b.domain) && StrLess(b.domain, c.domain) { StrLessTransitive(a.domain, b.domain, c.domain); }
    if StrLess(a.path, b.path) && StrLess(b.path, c.path) { StrLessTransitive(a.path, b.path, c.path); }
    if StrLess(a.name, b.name) && StrLess(b.name, c.name) { StrLessTransitive(a.name, b.name, c.name); }
    if StrLess(a.value, b.value) && StrLess(b.value, c.value) { StrLessTransitive(a.value, b.value, c.value); }
    StrLessTotal(a.domain, c.domain);
    StrLessTotal(a.domain, b.domain);
    StrLessTotal(a.path, c.path);
    StrLessTotal(a.path, b.path);
    StrLessTotal(a.name, c.name);
    StrLessTotal(a.name, b.name);
    StrLessTotal(a.value, c.value);
    StrLessTotal(a.value, b.value);
  }

  /** Less at the first place where the two differ, or a proper prefix. */
  ghost predicate LessAt(a: string, b: string, k: nat) {
    k <= |a| && k < |b| && a[..k] == b[..k] && (k == |a| || a[k] < b[k])
  }

  /** The string order is decided at the first difference. */
  lemma {:induction false} StrLessFirstDifference(a: string, b: string)
    ensures StrLess(a, b) <==> exists k: nat :: LessAt(a, b, k)
  {
    if a == [] || b == [] {
      assert b != [] ==> LessAt(a, b, 0);
    } else {
      StrLessFirstDifference(a[1..], b[1..]);
      if a[0] < b[0] {
        assert LessAt(a, b, 0);
      } else if k: nat :| LessAt(a[1..], b[1..], k) && a[0] == b[0] {
        assert a[..k + 1] == [a[0]] + a[1..][..k] && b[..k + 1] == [b[0]] + b[1..][..k];
        assert LessAt(a, b, k + 1);
      }
      if k: nat :| LessAt(a, b, k) {
        if k > 0 {
          assert a[..k][0] == b[..k][0];
          assert a[1..][..k - 1] == a[..k][1..] && b[1..][..k - 1] == b[..k][1..];
          assert LessAt(a[1..], b[1..], k - 1);
        }
      }
    }
  }

  /** Lexicographic order of lists of strings. */
  predicate ListLess(a: seq<string>, b: seq<string>)
    requires |a| == |b|
  {
    a != [] && (StrLess(a[0], b[0]) || (a[0] == b[0] && ListLess(a[1..], b[1..])))
  }

  lemma ListLessCons(x: string, a: seq<string>, y: string, b: seq<string>)
    requires |a| == |b|
    ensures ListLess([x] + a, [y] + b) <==> StrLess(x, y) || (x == y && ListLess(a, b))
  {
    assert ([x] + a)[1..] == a && ([y] + b)[1..] == b;
  }

  /** The comparators are the lexicographic orders of (domain, path, name), and of that
      followed by the value. */
  lemma ComparatorsAreLexicographic(l: Cookie, r: Cookie)
    ensures KeyLess(l, r) <==> ListLess([l.domain, l.path, l.name], [r.domain, r.path, r.name])
    ensures ValueLess(l, r) <==> ListLess([l.domain, l.path, l.name, l.value], [r.domain, r.path, r.name, r.value])
  {
    StrLessTotal(l.domain, r.domain);
    StrLessTotal(l.path, r.path);
    StrLessTotal(l.name, r.name);
    StrLessTotal(l.value, r.value);
    ListLessCons(l.domain, [l.path, l.name], r.domain, [r.path, r.name]);
    ListLessCons(l.path, [l.name], r.path, [r.name]);
    ListLessCons(l.name, [], r.name, []);
    ListLessCons(l.domain, [l.path, l.name, l.value], r.domain, [r.path, r.name, r.value]);
    ListLessCons(l.path, [l.name, l.value], r.path, [r.name, r.value]);
    ListLessCons(l.name, [l.value], r.name, [r.value]);
    ListLessCons(l.value, [], r.value, []);
  }

  // ---- CookieSet: std::set under KeyLess ----

  ghost predicate Sorted(s: seq<Cookie>) {
    forall i, j :: 0 <= i < j < |s| ==> KeyLess(s[i], s[j])
  }

  /** std::set::insert: an equivalent element already present stays. */
  function Insert(s: seq<Cookie>, c: Cookie): seq<Cookie> {
    if s == [] then [c]
    else if KeyLess(c, s[0]) then [c] + s
    else if KeyLess(s[0], c) then [s[0]] + Insert(s[1..], c)
    else s
  }

  /** CookieSet(v.begin(), v.end()). */
  function FromVector(v: seq<Cookie>): seq<Cookie> {
    if v == [] then [] else Insert(FromVector(v[..|v| - 1]), v[|v| - 1])
  }

  predicate HasKey(s: seq<Cookie>, c: Cookie) {
    exists i :: 0 <= i < |s| && SameKey(s[i], c)
  }

  /** `v[i]` is the first cookie of its key in the vector. */
  predicate First(v: seq<Cookie>, i: nat)
    requires i < |v|
  {
    !HasKey(v[..i], v[i])
  }

  ghost predicate Kept(v: seq<Cookie>, c: Cookie) {
    exists i :: 0 <= i < |v| && First(v, i) && v[i] == c
  }

  lemma {:induction false} InsertSpec(s: seq<Cookie>, c: Cookie)
    requires Sorted(s)
    ensures Sorted(Insert(s, c))
    ensures forall x :: x in Insert(s, c) <==> x in s || (x == c && !HasKey(s, c))
  {
    if s != [] {
      ValueLessTotal(c, s[0]);
      assert SameKey(s[0], c) ==> HasKey(s, c);
      if KeyLess(c, s[0]) {
        forall i | 0 <= i < |s| ensures KeyLess(c, s[i]) && !SameKey(s[i], c) {
          ValueLessTransitive(c, s[0], s[i]);
          ValueLessTotal(c, s[i]);
        }
      } else if KeyLess(s[0], c) {
        var rest := s[1..];
        InsertSpec(rest, c);
        assert HasKey(s, c) <==> HasKey(rest, c) by {
          if i :| 0 <= i < |s| && SameKey(s[i], c) {
            assert i > 0 && SameKey(rest[i - 1], c);
          }
          if i :| 0 <= i < |rest| && SameKey(rest[i], c) {
            assert SameKey(s[i + 1], c);
          }
        }
        var r := Insert(rest, c);
        forall i | 0 <= i < |r| ensures KeyLess(s[0], r[i]) {
          assert r[i] in r;
          if r[i] in rest {
            var j :| 0 <= j < |rest| && rest[j] == r[i];
            assert s[j + 1] == r[i];
          }
        }
        forall x ensures x in [s[0]] + r <==> x in s || (x == c && !HasKey(s, c)) {
          assert x in s <==> x == s[0] || x in rest;
        }
      }
    }
  }

  lemma HasKeyMembers(s: seq<Cookie>, c: Cookie)
    ensures HasKey(s, c) <==> exists x :: x in s && SameKey(x, c)
  {
    if x :| x in s && SameKey(x, c) {
      var i :| 0 <= i < |s| && s[i] == x;
      assert SameKey(s[i], c);
    }
  }

  lemma InsertKeys(s: seq<Cookie>, last: Cookie, c: Cookie)
    requires Sorted(s)
    ensures HasKey(Insert(s, last), c) <==> HasKey(s, c) || SameKey(last, c)
  {
    InsertSpec(s, last);
    HasKeyMembers(Insert(s, last), c);
    HasKeyMembers(s, c);
    if HasKey(s, last) {
      HasKeyMembers(s, last);
    }
  }

  lemma KeptSnoc(front: seq<Cookie>, last: Cookie, c: Cookie)
    ensures Kept(front + [last], c) <==> Kept(front, c) || (c == last && !HasKey(front, last))
  {
    var v := front + [last];
    assert forall i :: 0 <= i < |front| ==> v[..i] == front[..i] && v[i] == front[i];
    assert v[..|front|] == front && v[|front|] == last;
    if i :| 0 <= i < |v| && First(v, i) && v[i] == c {
      assert i < |front| ==> First(front, i);
    }
    if i :| 0 <= i < |front| && First(front, i) && front[i] == c {
      assert First(v, i);
    }
    if c == last && !HasKey(front, last) {
      assert First(v, |front|);
    }
  }

  lemma HasKeySnoc(front: seq<Cookie>, last: Cookie, c: Cookie)
    ensures HasKey(front + [last], c) <==> HasKey(front, c) || SameKey(last, c)
  {
    var v := front + [last];
    assert v[|front|] == last;
    if i :| 0 <= i < |front| && SameKey(front[i], c) {
      assert SameKey(v[i], c);
    }
  }

  /** The set built from a vector holds exactly the first cookie of every key. */
  lemma {:induction false} FromVectorKeepsFirsts(v: seq<Cookie>)
    ensures Sorted(FromVector(v))
    ensures forall c :: c in FromVector(v) <==> Kept(v, c)
    ensures forall c :: HasKey(FromVector(v), c) <==> HasKey(v, c)
  {
    if v != [] {
      var front, last := v[..|v| - 1], v[|v| - 1];
      assert v == front + [last];
      FromVectorKeepsFirsts(front);
      InsertSpec(FromVector(front), last);
      forall c ensures c in FromVector(v) <==> Kept(v, c) { KeptSnoc(front, last, c); }
      forall c ensures HasKey(FromVector(v), c) <==> HasKey(v, c) {
        HasKeySnoc(front, last, c);
        InsertKeys(FromVector(front), last, c);
      }
    }
  }

  lemma {:induction false} InsertLast(s: seq<Cookie>, c: Cookie)
    requires forall i :: 0 <= i < |s| ==> KeyLess(s[i], c)
    ensures Insert(s, c) == s + [c]
  {
    if s != [] {
      ValueLessTotal(s[0], c);
      InsertLast(s[1..], c);
    }
  }

  lemma {:induction false} FromSorted(s: seq<Cookie>)
    requires Sorted(s)
    ensures FromVector(s) == s
  {
    if s != [] {
      var front := s[..|s| - 1];
      FromSorted(front);
      InsertLast(front, s[|s| - 1]);
    }
  }

  // ---- std::set_difference under ValueLess ----

  function SetDifference(a: seq<Cookie>, b: seq<Cookie>): seq<Cookie>
    decreases |a| + |b|
  {
    if a == [] then []
    else if b == [] then a
    else if ValueLess(a[0], b[0]) then [a[0]] + SetDifference(a[1..], b)
    else if !ValueLess(b[0], a[0]) then SetDifference(a[1..], b[1..])
    else SetDifference(a, b[1..])
  }

  /** Past the head of a sorted set everything is larger than what the head is larger than. */
  lemma BelowHeadIsAbsent(c: Cookie, s: seq<Cookie>)
    requires Sorted(s) && s != [] && ValueLess(c, s[0])
    ensures Tup(c) !in Tuples(s)
  {
    if Tup(c) in Tuples(s) {
      var d :| d in s && Tup(d) == Tup(c);
      var i :| 0 <= i < |s| && s[i] == d;
      if i > 0 {
        ValueLessTotal(s[0], s[i]);
        ValueLessTransitive(c, s[0], s[i]);
      }
      ValueLessTotal(c, s[i]);
    }
  }

  lemma HeadIsUnique(s: seq<Cookie>, x: Cookie)
    requires Sorted(s) && s != [] && x in s[1..]
    ensures Tup(x) != Tup(s[0])
  {
    var i :| 0 <= i < |s[1..]| && s[1..][i] == x;
    ValueLessTotal(s[0], s[i + 1]);
  }

  lemma MembersHead(s: seq<Cookie>, x: Cookie)
    requires s != []
    ensures x in s <==> x == s[0] || x in s[1..]
    ensures Tuples(s) == {Tup(s[0])} + Tuples(s[1..])
  {
    forall y ensures y in s <==> y == s[0] || y in s[1..] {
      assert s == [s[0]] + s[1..];
    }
  }

  /** The merge computes the exact difference of 4-tuples, in order. */
  lemma {:induction false} DifferenceIsExact(a: seq<Cookie>, b: seq<Cookie>)
    requires Sorted(a) && Sorted(b)
    ensures Sorted(SetDifference(a, b))
    ensures forall x :: x in SetDifference(a, b) <==> x in a && Tup(x) !in Tuples(b)
    decreases |a| + |b|
  {
    if a != [] && b != [] {
      var r := SetDifference(a, b);
      ValueLessTotal(a[0], b[0]);
      if ValueLess(a[0], b[0]) {
        DifferenceIsExact(a[1..], b);
        BelowHeadIsAbsent(a[0], b);
        var tail := SetDifference(a[1..], b);
        forall i | 0 <= i < |tail| ensures KeyLess(a[0], tail[i]) {
          assert tail[i] in a[1..];
        }
        forall x ensures x in r <==> x in a && Tup(x) !in Tuples(b) { MembersHead(a, x); }
      } else if !ValueLess(b[0], a[0]) {
        DifferenceIsExact(a[1..], b[1..]);
        forall x ensures x in r <==> x in a && Tup(x) !in Tuples(b) {
          MembersHead(a, x);
          MembersHead(b, x);
          if x in a[1..] { HeadIsUnique(a, x); }
        }
      } else {
        DifferenceIsExact(a, b[1..]);
        BelowHeadIsAbsent(b[0], a);
        forall x ensures x in r <==> x in a && Tup(x) !in Tuples(b) {
          MembersHead(b, x);
          assert x in a ==> Tup(x) in Tuples(a);
        }
      }
    }
  }

  lemma DifferenceTuples(a: seq<Cookie>, b: seq<Cookie>)
    requires Sorted(a) && Sorted(b)
    ensures Tuples(SetDifference(a, b)) == Tuples(a) - Tuples(b)
    ensures SetDifference(a, b) == [] <==> Tuples(a) <= Tuples(b)
    ensures FromVector(SetDifference(a, b)) == SetDifference(a, b)
  {
    DifferenceIsExact(a, b);
    FromSorted(SetDifference(a, b));
    var d := SetDifference(a, b);
    if d != [] {
      assert d[0] in d;
      assert Tup(d[0]) in Tuples(a);
    }
    forall t | t in Tuples(a) - Tuples(b) ensures t in Tuples(d) {
      var c :| c in a && Tup(c) == t;
      assert c in d;
    }
  }

  // ---- one update, and whole runs ----

  type Cache = map<Key, seq<Cookie>>

  ghost predicate AllSorted(cache: Cache) {
    forall k :: k in cache ==> Sorted(cache[k])
  }

  /** The set for a key; absent keys read as empty, as operator[] makes them. */
  function Lookup(cache: Cache, k: Key): seq<Cookie> {
    if k in cache then cache[k] else []
  }

  datatype Call = Call(key: Key, cookies: seq<Cookie>)

  datatype Report = Report(changed: bool, removed: seq<Cookie>, added: seq<Cookie>)

  function Reported(cache: Cache, call: Call): Report {
    var olds, news := Lookup(cache, call.key), FromVector(call.cookies);
    var added, removed := SetDifference(news, olds), SetDifference(olds, news);
    if added == [] && removed == [] then Report(false, [], []) else Report(true, removed, added)
  }

  function After(cache: Cache, call: Call): Cache {
    cache[call.key := if Reported(cache, call).changed then FromVector(call.cookies) else Lookup(cache, call.key)]
  }

  ghost predicate KeptTuple(v: seq<Cookie>, t: Tuple) {
    exists c :: Kept(v, c) && Tup(c) == t
  }

  /** One call: the report is the exact difference, and says nothing exactly when both
      sides hold the same 4-tuples; then the old cookies stay. Other keys are untouched. */
  lemma UpdateReportsDifference(cache: Cache, call: Call)
    requires AllSorted(cache)
    ensures var r, olds, news := Reported(cache, call), Tuples(Lookup(cache, call.key)), Tuples(FromVector(call.cookies));
      && Tuples(r.removed) == olds - news
      && Tuples(r.added) == news - olds
      && (r.changed <==> olds != news)
    ensures AllSorted(After(cache, call))
    ensures Tuples(Lookup(After(cache, call), call.key)) == Tuples(FromVector(call.cookies))
    ensures forall k :: k != call.key ==> Lookup(After(cache, call), k) == Lookup(cache, k)
  {
    FromVectorKeepsFirsts(call.cookies);
    DifferenceTuples(FromVector(call.cookies), Lookup(cache, call.key));
    DifferenceTuples(Lookup(cache, call.key), FromVector(call.cookies));
  }

  lemma KeptTuples(v: seq<Cookie>, t: Tuple)
    ensures t in Tuples(FromVector(v)) <==> KeptTuple(v, t)
  {
    FromVectorKeepsFirsts(v);
  }

  /** Cookie by cookie: the removals are, each once and in order, the cached cookies whose
      4-tuple is not among the first of the passed ones, the additions the first passed ones
      whose 4-tuple is not cached; without a change the cached cookies stay as they are. */
  lemma ReportIsExact(cache: Cache, call: Call)
    requires AllSorted(cache)
    ensures Sorted(Reported(cache, call).removed) && Sorted(Reported(cache, call).added)
    ensures forall c :: c in Reported(cache, call).removed <==>
      c in Lookup(cache, call.key) && !KeptTuple(call.cookies, Tup(c))
    ensures forall c :: c in Reported(cache, call).added <==>
      Kept(call.cookies, c) && Tup(c) !in Tuples(Lookup(cache, call.key))
    ensures !Reported(cache, call).changed ==> Lookup(After(cache, call), call.key) == Lookup(cache, call.key)
  {
    var olds, news := Lookup(cache, call.key), FromVector(call.cookies);
    FromVectorKeepsFirsts(call.cookies);
    DifferenceIsExact(news, olds);
    DifferenceIsExact(olds, news);
    forall c: Cookie ensures Tup(c) in Tuples(news) <==> KeptTuple(call.cookies, Tup(c)) {
      KeptTuples(call.cookies, Tup(c));
    }
  }

  function RunCache(calls: seq<Call>): Cache {
    if calls == [] then map[] else After(RunCache(calls[..|calls| - 1]), calls[|calls| - 1])
  }

  /** A client that only hears the reports and applies removals, then additions. */
  function Heard(calls: seq<Call>, k: Key): set<Tuple> {
    if calls == [] then {} else
      var front, last := calls[..|calls| - 1], calls[|calls| - 1];
      if last.key != k then Heard(front, k)
      else
        var r := Reported(RunCache(front), last);
        Heard(front, k) - Tuples(r.removed) + Tuples(r.added)
  }

  function LastPassed(calls: seq<Call>, k: Key): seq<Cookie> {
    if calls == [] then []
    else if calls[|calls| - 1].key == k then calls[|calls| - 1].cookies
    else LastPassed(calls[..|calls| - 1], k)
  }

  /** Deltas replay: over every run and for every key, what a client pieced together
      from the reports is the cached set, and both are the first cookies per key of the
      vector last passed for that key. */
  lemma {:induction false} DeltasReplay(calls: seq<Call>, k: Key)
    ensures AllSorted(RunCache(calls))
    ensures Heard(calls, k) == Tuples(Lookup(RunCache(calls), k))
    ensures forall t :: t in Heard(calls, k) <==> KeptTuple(LastPassed(calls, k), t)
  {
    if calls == [] {
    } else {
      var front, last := calls[..|calls| - 1], calls[|calls| - 1];
      DeltasReplay(front, k);
      UpdateReportsDifference(RunCache(front), last);
      FromVectorKeepsFirsts(last.cookies);
      if last.key == k {
        forall t ensures t in Heard(calls, k) <==> KeptTuple(last.cookies, t) {
          assert Heard(calls, k) == Tuples(FromVector(last.cookies));
        }
      }
    }
  }

  // ---- the documented meaning of the result ----

  /** The header's wording: some passed cookie is not cached with that value, or some
      cached one is not passed. */
  ghost predicate DocumentedChange(olds: seq<Cookie>, passed: seq<Cookie>) {
    Tuples(olds) != Tuples(passed)
  }

  /** No two passed cookies share a key and differ in value. */
  predicate NoClash(v: seq<Cookie>) {
    forall i, j :: 0 <= i < j < |v| && SameKey(v[i], v[j]) ==> v[i].value == v[j].value
  }

  ghost predicate AgreesWithHeader(olds: seq<Cookie>, k: Key, v: seq<Cookie>) {
    Reported(map[k := olds], Call(k, v)).changed <==> DocumentedChange(olds, v)
  }

  lemma {:induction false} FirstExists(v: seq<Cookie>, i: nat) returns (f: nat)
    requires i < |v|
    ensures f <= i && First(v, f) && SameKey(v[f], v[i])
  {
    if HasKey(v[..i], v[i]) {
      var j :| 0 <= j < |v[..i]| && SameKey(v[..i][j], v[i]);
      f := FirstExists(v, j);
    } else {
      f := i;
    }
  }

  /** A set holds one cookie per key, so its 4-tuples never clash. */
  lemma SortedHasNoClash(s: seq<Cookie>, v: seq<Cookie>)
    requires Sorted(s) && Tuples(s) == Tuples(v)
    ensures NoClash(v)
  {
    forall i, j | 0 <= i < j < |v| && SameKey(v[i], v[j]) ensures v[i].value == v[j].value {
      assert v[i] in v && v[j] in v;
      assert Tup(v[i]) in Tuples(s) && Tup(v[j]) in Tuples(s);
      var c :| c in s && Tup(c) == Tup(v[i]);
      var d :| d in s && Tup(d) == Tup(v[j]);
      var p :| 0 <= p < |s| && s[p] == c;
      var q :| 0 <= q < |s| && s[q] == d;
      ValueLessTotal(c, d);
      ValueLessTotal(d, c);
    }
  }

  lemma NoClashKeepsTuples(v: seq<Cookie>)
    ensures NoClash(v) <==> Tuples(FromVector(v)) == Tuples(v)
  {
    FromVectorKeepsFirsts(v);
    forall t | t in Tuples(FromVector(v)) ensures t in Tuples(v) {
      var c :| c in FromVector(v) && Tup(c) == t;
      assert Kept(v, c) && c in v;
    }
    if NoClash(v) {
      forall t | t in Tuples(v) ensures t in Tuples(FromVector(v)) {
        var c :| c in v && Tup(c) == t;
        var i :| 0 <= i < |v| && v[i] == c;
        var f := FirstExists(v, i);
        assert Kept(v, v[f]) && Tup(v[f]) == t;
      }
    } else if Tuples(FromVector(v)) == Tuples(v) {
      SortedHasNoClash(FromVector(v), v);
    }
  }

  /** For a given call the result means what the header says exactly if the vector has no
      clash or the cached tuples are not those of its first cookies. */
  lemma CallAgreesWithHeaderIff(olds: seq<Cookie>, k: Key, v: seq<Cookie>)
    requires Sorted(olds)
    ensures AgreesWithHeader(olds, k, v) <==> NoClash(v) || Tuples(olds) != Tuples(FromVector(v))
  {
    NoClashKeepsTuples(v);
    FromVectorKeepsFirsts(v);
    UpdateReportsDifference(map[k := olds], Call(k, v));
    if Tuples(olds) == Tuples(v) { SortedHasNoClash(olds, v); }
  }

  /** Whatever is cached, the result means what the header says exactly for the vectors
      without a clash. */
  lemma HeaderHoldsIffNoClash(k: Key, v: seq<Cookie>)
    ensures NoClash(v) <==> forall olds :: Sorted(olds) ==> AgreesWithHeader(olds, k, v)
  {
    forall olds | Sorted(olds)
      ensures AgreesWithHeader(olds, k, v) <==> NoClash(v) || Tuples(olds) != Tuples(FromVector(v))
    {
      CallAgreesWithHeaderIff(olds, k, v);
    }
    FromVectorKeepsFirsts(v);
    if forall olds :: Sorted(olds) ==> AgreesWithHeader(olds, k, v) {
      assert AgreesWithHeader(FromVector(v), k, v);
    }
  }

  /** A vector passed twice in a row is silent the second time, after every run; it then
      still holds a cookie that is not cached exactly if it has a clash. */
  lemma SecondTimeSilent(calls: seq<Call>, k: Key, v: seq<Cookie>)
    ensures var cache := RunCache(calls + [Call(k, v)]);
      && !Reported(cache, Call(k, v)).changed
      && (DocumentedChange(Lookup(cache, k), v) <==> !NoClash(v))
  {
    var all := calls + [Call(k, v)];
    assert all[..|calls|] == calls;
    DeltasReplay(calls, k);
    DeltasReplay(all, k);
    UpdateReportsDifference(RunCache(calls), Call(k, v));
    UpdateReportsDifference(RunCache(all), Call(k, v));
    NoClashKeepsTuples(v);
  }

  /** Two cookies of one key with different values, passed twice: the second call returns
      false although the header calls for true. */
  lemma ClashWitness()
    ensures var k, v := Key("u", "n"), [Cookie("d", "p", "n", "a", 0), Cookie("d", "p", "n", "b", 0)];
      var cache := RunCache([Call(k, v)]);
      !Reported(cache, Call(k, v)).changed && DocumentedChange(Lookup(cache, k), v)
  {
    var k, v := Key("u", "n"), [Cookie("d", "p", "n", "a", 0), Cookie("d", "p", "n", "b", 0)];
    assert SameKey(v[0], v[1]) && v[0].value[0] != v[1].value[0];
    assert [] + [Call(k, v)] == [Call(k, v)];
    SecondTimeSilent([], k, v);
  }

  // ---- the object ----

  /** `out` is `given` with the cookies that `news` no longer holds behind it, each once
      and in order; a missing vector stays missing. */
  ghost predicate RemovedExactly(given: Option<seq<Cookie>>, out: Option<seq<Cookie>>, olds: seq<Cookie>, news: seq<Cookie>) {
    && (given.Some? <==> out.Some?)
    && (given.Some? ==>
          && given.value <= out.value
          && Sorted(out.value[|given.value|..])
          && forall c :: c in out.value[|given.value|..] <==> c in olds && !KeptTuple(news, Tup(c)))
  }

  /** The same for the first cookies per key of `news` that were not cached with that value. */
  ghost predicate AddedExactly(given: Option<seq<Cookie>>, out: Option<seq<Cookie>>, olds: seq<Cookie>, news: seq<Cookie>) {
    && (given.Some? <==> out.Some?)
    && (given.Some? ==>
          && given.value <= out.value
          && Sorted(out.value[|given.value|..])
          && forall c :: c in out.value[|given.value|..] <==> Kept(news, c) && Tup(c) !in Tuples(olds))
  }

  /** What a vector becomes when cookies are put behind it; a missing one stays missing. */
  function Grown(given: Option<seq<Cookie>>, more: seq<Cookie>): Option<seq<Cookie>> {
    if given.Some? then Some(given.value + more) else None
  }

  lemma ReportAppended(cache: Cache, call: Call, given: Option<seq<Cookie>>)
    requires AllSorted(cache)
    ensures var r, olds := Reported(cache, call), Lookup(cache, call.key);
      && RemovedExactly(given, Grown(given, r.removed), olds, call.cookies)
      && AddedExactly(given, Grown(given, r.added), olds, call.cookies)
  {
    ReportIsExact(cache, call);
    if given.Some? {
      var r := Reported(cache, call);
      assert (given.value + r.removed)[|given.value|..] == r.removed;
      assert (given.value + r.added)[|given.value|..] == r.added;
    }
  }

  /** What one update comes to: the difference told exactly, the first passed cookies cached
      if it is not empty and the old ones kept if it is, other keys left alone. */
  ghost predicate UpdateOk(before: Cache, after: Cache, call: Call, changed: bool,
                           outRemoved: Option<seq<Cookie>>, removed: Option<seq<Cookie>>,
                           outAdded: Option<seq<Cookie>>, added: Option<seq<Cookie>>) {
    var olds, news := Lookup(before, call.key), Lookup(after, call.key);
    && AllSorted(after)
    && RemovedExactly(outRemoved, removed, olds, call.cookies)
    && AddedExactly(outAdded, added, olds, call.cookies)
    && (changed <==> exists t :: !(t in Tuples(olds) <==> KeptTuple(call.cookies, t)))
    && (changed ==> forall c :: c in news <==> Kept(call.cookies, c))
    && (!changed ==> news == olds)
    && (forall k :: k != call.key ==> Lookup(after, k) == Lookup(before, k))
  }

  lemma ChangedMeans(cache: Cache, call: Call)
    requires AllSorted(cache)
    ensures var olds := Lookup(cache, call.key);
      Reported(cache, call).changed <==> exists t :: !(t in Tuples(olds) <==> KeptTuple(call.cookies, t))
  {
    UpdateReportsDifference(cache, call);
    forall t ensures t in Tuples(FromVector(call.cookies)) <==> KeptTuple(call.cookies, t) { KeptTuples(call.cookies, t); }
  }

  lemma UpdateMeans(cache: Cache, call: Call, outRemoved: Option<seq<Cookie>>, outAdded: Option<seq<Cookie>>)
    requires AllSorted(cache)
    ensures var r := Reported(cache, call);
      UpdateOk(cache, After(cache, call), call, r.changed, outRemoved, Grown(outRemoved, r.removed),
               outAdded, Grown(outAdded, r.added))
  {
    UpdateReportsDifference(cache, call);
    ReportIsExact(cache, call);
    ReportAppended(cache, call, outRemoved);
    ReportAppended(cache, call, outAdded);
    ChangedMeans(cache, call);
    FromVectorKeepsFirsts(call.cookies);
  }

  /** Collecting the differences in sets again changes nothing. */
  lemma Recollected(cache: Cache, call: Call)
    requires AllSorted(cache)
    ensures var olds, news := Lookup(cache, call.key), FromVector(call.cookies);
      && FromVector(SetDifference(news, olds)) == SetDifference(news, olds)
      && FromVector(SetDifference(olds, news)) == SetDifference(olds, news)
  {
    FromVectorKeepsFirsts(call.cookies);
    DifferenceTuples(FromVector(call.cookies), Lookup(cache, call.key));
    DifferenceTuples(Lookup(cache, call.key), FromVector(call.cookies));
  }

  lemma NothingGrown(given: Option<seq<Cookie>>)
    ensures Grown(given, []) == given
  {
    if given.Some? { assert given.value + [] == given.value; }
  }

  class CookieCache {
    var cache: Cache

    ghost predicate Valid()
      reads this
    {
      AllSorted(cache)
    }

    constructor ()
      ensures Valid() && cache == map[]
    {
      cache := map[];
    }

    /** The two out vectors may be null; what is reported is appended to them. */
    method Update(url: string, name: string, newCookies: seq<Cookie>,
                  outRemoved: Option<seq<Cookie>>, outAdded: Option<seq<Cookie>>)
      returns (changed: bool, removed: Option<seq<Cookie>>, added: Option<seq<Cookie>>)
      requires Valid()
      modifies this
      ensures Valid()
      ensures cache == After(old(cache), Call(Key(url, name), newCookies))
      ensures UpdateOk(old(cache), cache, Call(Key(url, name), newCookies), changed, outRemoved, removed, outAdded, added)
      ensures var r := Reported(old(cache), Call(Key(url, name), newCookies));
        removed == Grown(outRemoved, r.removed) && added == Grown(outAdded, r.added)
    {
      var key := Key(url, name);
      UpdateMeans(cache, Call(key, newCookies), outRemoved, outAdded);
      Recollected(cache, Call(key, newCookies));
      NothingGrown(outRemoved);
      NothingGrown(outAdded);
      removed, added := outRemoved, outAdded;
      if key !in cache {
        cache := cache[key := []];
      }
      var oldSet := cache[key];
      var newSet := FromVector(newCookies);
      var addedCookies := FromVector(SetDifference(newSet, oldSet));
      var removedCookies := FromVector(SetDifference(oldSet, newSet));
      if addedCookies == [] && removedCookies == [] {
        return false, removed, added;
      }
      cache := cache[key := newSet];
      if removed.Some? {
        removed := Some(removed.value + removedCookies);
      }
      if added.Some? {
        added := Some(added.value + addedCookies);
      }
      changed := true;
    }
  }
}
