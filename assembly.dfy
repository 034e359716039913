/**
 How the engine builds its middleware chain at start-up: the configured
 (middleware, priority) pairs are filtered, then stably sorted by priority.
 The user-class test is a parameter, so that every property here holds both
 for the test the engine applies and for the corrected one.
 */
module Assembly {
  import opened Types
  import opened Middlewares

  /** A kept chain entry: the class to instantiate and its priority. */
  datatype Entry = Entry(cls: PyClass, priority: int)

  predicate ValidPriority(p: int) {
    0 <= p <= 1000
  }

  /** The test on a DEFAULT_MIDDLEWARES entry. */
  predicate KeepDefault(d: (string, int)) {
    ValidPriority(d.1) && d.0 in ModuleAll
  }

  /** The test on a user entry, as the engine writes it:
      `issubclass(BaseMiddleware, mw)` (the arguments are the other way round
      from a subclass check on `mw`). */
  predicate AsWrittenUserTest(c: PyClass) {
    IsSubclass(BaseMiddlewareClass, c)
  }

  /** The evidently intended test: `issubclass(mw, BaseMiddleware)`. */
  predicate IntendedUserTest(c: PyClass) {
    IsSubclass(c, BaseMiddlewareClass)
  }

  /** The default entries kept, in dictionary order. */
  function KeptDefaults(ds: seq<(string, int)>): (r: seq<Entry>)
    ensures |r| <= |ds|
    ensures forall e :: e in r ==> ValidPriority(e.priority) && e.cls.name in ModuleAll
  {
    if ds == [] then []
    else
      var last := ds[|ds| - 1];
      KeptDefaults(ds[..|ds| - 1]) +
        (if KeepDefault(last) then [Entry(ClassNamed(last.0), last.1)] else [])
  }

  /** The user entries kept, in list order. */
  function KeptUsers(us: seq<(PyClass, int)>, accept: PyClass -> bool): (r: seq<Entry>)
    ensures |r| <= |us|
    ensures forall e :: e in r ==> ValidPriority(e.priority) && accept(e.cls)
  {
    if us == [] then []
    else
      var last := us[|us| - 1];
      KeptUsers(us[..|us| - 1], accept) +
        (if ValidPriority(last.1) && accept(last.0) then [Entry(last.0, last.1)] else [])
  }

  /** Every default entry that passes the test is kept, and only those. */
  lemma {:induction false} KeptDefaultsExactly(ds: seq<(string, int)>, name: string, p: int)
    ensures (exists e :: e in KeptDefaults(ds) && e.cls.name == name && e.priority == p)
        <==> (name, p) in ds && KeepDefault((name, p))
  {
    if ds != [] {
      KeptDefaultsExactly(ds[..|ds| - 1], name, p);
      assert ds == ds[..|ds| - 1] + [ds[|ds| - 1]];
      var last := ds[|ds| - 1];
      if KeepDefault(last) && last == (name, p) {
        assert Entry(ClassNamed(name), p) in KeptDefaults(ds);
      }
    }
  }

  /** No deduplication: listing the same user entries twice keeps them twice. */
  lemma {:induction false} KeptUsersAppend(us: seq<(PyClass, int)>, vs: seq<(PyClass, int)>, accept: PyClass -> bool)
    ensures KeptUsers(us + vs, accept) == KeptUsers(us, accept) + KeptUsers(vs, accept)
  {
    if vs != [] {
      assert (us + vs)[..|us + vs| - 1] == us + vs[..|vs| - 1];
      KeptUsersAppend(us, vs[..|vs| - 1], accept);
    } else {
      assert us + vs == us;
    }
  }

  lemma KeptUsersTwice(us: seq<(PyClass, int)>, accept: PyClass -> bool)
    ensures |KeptUsers(us + us, accept)| == 2 * |KeptUsers(us, accept)|
  {
    KeptUsersAppend(us, us, accept);
  }

  /** Inserts `e` before the first entry whose priority is not below its own,
      so that `e`, which came first in the input, stays ahead of its equals. */
  function InsertByPriority(e: Entry, s: seq<Entry>): (r: seq<Entry>)
    ensures multiset(r) == multiset(s) + multiset{e}
  {
    if s == [] || e.priority <= s[0].priority then [e] + s
    else
      assert s == [s[0]] + s[1..];
      [s[0]] + InsertByPriority(e, s[1..])
  }

  /** `sorted(entries, key=lambda x: x[1])`, which is stable. */
  function SortByPriority(s: seq<Entry>): (r: seq<Entry>)
    ensures multiset(r) == multiset(s)
  {
    if s == [] then []
    else
      assert s == [s[0]] + s[1..];
      InsertByPriority(s[0], SortByPriority(s[1..]))
  }

  predicate SortedByPriority(s: seq<Entry>) {
    forall i, j :: 0 <= i < j < |s| ==> s[i].priority <= s[j].priority
  }

  /** The entries of priority `p`, in their order in `s`. */
  function WithPriority(s: seq<Entry>, p: int): seq<Entry> {
    if s == [] then []
    else (if s[0].priority == p then [s[0]] else []) + WithPriority(s[1..], p)
  }

  /** An entry no later than any of the rest, put in front of a sorted
      sequence, keeps it sorted. */
  lemma ConsSorted(h: Entry, t: seq<Entry>)
    requires SortedByPriority(t)
    requires forall x :: x in t ==> h.priority <= x.priority
    ensures SortedByPriority([h] + t)
  {
    forall i, j | 0 <= i < j < |[h] + t|
      ensures ([h] + t)[i].priority <= ([h] + t)[j].priority
    {
      assert ([h] + t)[j] == t[j - 1];
      if i > 0 {
        assert ([h] + t)[i] == t[i - 1];
      } else {
        assert t[j - 1] in t;
      }
    }
  }

  lemma {:induction false} InsertSorted(e: Entry, s: seq<Entry>)
    requires SortedByPriority(s)
    ensures SortedByPriority(InsertByPriority(e, s))
  {
    if s == [] || e.priority <= s[0].priority {
      forall x | x in s
        ensures e.priority <= x.priority
      {
        var k :| 0 <= k < |s| && s[k] == x;
        assert s[0].priority <= s[k].priority;
      }
      ConsSorted(e, s);
    } else {
      assert SortedByPriority(s[1..]);
      InsertSorted(e, s[1..]);
      var t := InsertByPriority(e, s[1..]);
      forall x | x in t
        ensures s[0].priority <= x.priority
      {
        assert x in multiset(t);
        assert x == e || x in multiset(s[1..]);
      }
      ConsSorted(s[0], t);
    }
  }

  /** The assembled chain is ordered by non-decreasing priority. */
  lemma {:induction false} SortSorted(s: seq<Entry>)
    ensures SortedByPriority(SortByPriority(s))
  {
    if s != [] {
      SortSorted(s[1..]);
      InsertSorted(s[0], SortByPriority(s[1..]));
    }
  }

  lemma {:induction false} WithPriorityAppend(s: seq<Entry>, t: seq<Entry>, p: int)
    ensures WithPriority(s + t, p) == WithPriority(s, p) + WithPriority(t, p)
  {
    if s == [] {
      assert s + t == t;
    } else {
      var head := if s[0].priority == p then [s[0]] else [];
      assert (s + t)[0] == s[0];
      assert (s + t)[1..] == s[1..] + t;
      WithPriorityAppend(s[1..], t, p);
      calc {
        WithPriority(s + t, p);
        head + WithPriority(s[1..] + t, p);
        head + (WithPriority(s[1..], p) + WithPriority(t, p));
        { assert head + (WithPriority(s[1..], p) + WithPriority(t, p))
              == (head + WithPriority(s[1..], p)) + WithPriority(t, p); }
        WithPriority(s, p) + WithPriority(t, p);
      }
    }
  }

  lemma {:induction false} InsertStable(e: Entry, s: seq<Entry>, p: int)
    ensures WithPriority(InsertByPriority(e, s), p)
         == (if e.priority == p then [e] else []) + WithPriority(s, p)
  {
    if s == [] || e.priority <= s[0].priority {
      assert ([e] + s)[1..] == s;
    } else {
      InsertStable(e, s[1..], p);
      assert ([s[0]] + InsertByPriority(e, s[1..]))[1..] == InsertByPriority(e, s[1..]);
    }
  }

  /** Stability: among entries of one priority the input order is kept. */
  lemma {:induction false} SortStable(s: seq<Entry>, p: int)
    ensures WithPriority(SortByPriority(s), p) == WithPriority(s, p)
  {
    if s != [] {
      SortStable(s[1..], p);
      InsertStable(s[0], SortByPriority(s[1..]), p);
    }
  }

  /** `self.__middlewares` after line 131, before instantiation. */
  function Assembled(settings: Settings, accept: PyClass -> bool): seq<Entry> {
    SortByPriority(KeptDefaults(settings.defaultMiddlewares) + KeptUsers(settings.middlewares, accept))
  }

  /** Every entry of the chain has a priority in 0..1000, the chain is sorted,
      nothing is dropped or duplicated by the sort, and at equal priority the
      defaults come first, each group in its configured order. */
  lemma AssembledProperties(settings: Settings, accept: PyClass -> bool, p: int)
    ensures var chain := Assembled(settings, accept);
      var ds := KeptDefaults(settings.defaultMiddlewares);
      var us := KeptUsers(settings.middlewares, accept);
      && (forall e :: e in chain ==> ValidPriority(e.priority))
      && SortedByPriority(chain)
      && multiset(chain) == multiset(ds) + multiset(us)
      && |chain| == |ds| + |us|
      && WithPriority(chain, p) == WithPriority(ds, p) + WithPriority(us, p)
  {
    var ds := KeptDefaults(settings.defaultMiddlewares);
    var us := KeptUsers(settings.middlewares, accept);
    var chain := Assembled(settings, accept);
    forall e | e in chain
      ensures ValidPriority(e.priority)
    {
      assert e in multiset(chain);
      assert e in multiset(ds + us);
      assert e in ds + us;
    }
    SortSorted(ds + us);
    assert |multiset(chain)| == |multiset(ds + us)|;
    SortStable(ds + us, p);
    WithPriorityAppend(ds, us, p);
  }

  /** A proper subclass of BaseMiddleware, as a user would write one. */
  const UserSubclass := PyClass("MyMiddleware", {"MyMiddleware", "BaseMiddleware", "object"})

  /** As written, a user's own subclass of BaseMiddleware at a valid priority
      is dropped, while `object` itself (which cannot be instantiated with the
      middleware constructor's arguments) is kept. */
  lemma AsWrittenDropsSubclass()
    ensures KeptUsers([(UserSubclass, 500)], AsWrittenUserTest) == []
    ensures KeptUsers([(ObjectClass, 500)], AsWrittenUserTest) == [Entry(ObjectClass, 500)]
  {
    assert [(UserSubclass, 500)][..0] == [];
    assert [(ObjectClass, 500)][..0] == [];
    assert !("MyMiddleware" in BaseMiddlewareClass.mro);
  }

  /** With the intended test the same subclass is kept, and every kept user
      entry is a BaseMiddleware. */
  lemma IntendedKeepsSubclass(us: seq<(PyClass, int)>)
    ensures KeptUsers([(UserSubclass, 500)], IntendedUserTest) == [Entry(UserSubclass, 500)]
    ensures forall e :: e in KeptUsers(us, IntendedUserTest) ==> IsSubclass(e.cls, BaseMiddlewareClass)
  {
    assert [(UserSubclass, 500)][..0] == [];
  }

  /** With the intended test a user entry is kept exactly when its priority is
      valid and its class derives from BaseMiddleware. */
  lemma {:induction false} IntendedKeptExactly(us: seq<(PyClass, int)>, c: PyClass, p: int)
    ensures Entry(c, p) in KeptUsers(us, IntendedUserTest)
        <==> (c, p) in us && ValidPriority(p) && IsSubclass(c, BaseMiddlewareClass)
  {
    if us != [] {
      IntendedKeptExactly(us[..|us| - 1], c, p);
      assert us == us[..|us| - 1] + [us[|us| - 1]];
    }
  }
}
