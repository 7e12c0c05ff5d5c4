/** What the scan sees of an AWS account: descriptions returned a page at
    a time, the dictionaries the fetchers fold them into, and the ghost
    report the comparator fills in. */
module Cloud {
  import opened Wrappers

  /** One AWS description as the scan uses it: its natural id (the field a
      fetcher keys by: `LoadBalancerName`, `GroupId`,
      `AutoScalingGroupName` or `InstanceId`), an instance's
      `State.Code`, and an autoscaling group's member instances. */
  datatype Record = Record(name: string, code: int, members: seq<Record>)

  /** One reply of a describe call: its items and the token (`NextMarker`
      or `NextToken`) asking for more, absent on the last page. */
  datatype Page = Page(items: seq<Record>, next: Option<string>)

  /** The replies a paginated call gets, in order: each page but the last
      carries a token, the last carries none. */
  predicate Chained(pages: seq<Page>) {
    |pages| >= 1
    && (forall i :: 0 <= i < |pages| - 1 ==> pages[i].next.Some?)
    && pages[|pages| - 1].next.None?
  }

  /** The items of all pages, in order. */
  function Items(pages: seq<Page>): (items: seq<Record>)
    ensures forall r :: r in items <==> exists i :: 0 <= i < |pages| && r in pages[i].items
  {
    if pages == [] then []
    else
      var rest := Items(pages[1..]);
      assert forall r :: r in rest <==> exists i :: 1 <= i < |pages| && r in pages[i].items by {
        forall r | r in rest ensures exists i :: 1 <= i < |pages| && r in pages[i].items {
          var i :| 0 <= i < |pages[1..]| && r in pages[1..][i].items;
          assert r in pages[i + 1].items;
        }
        forall r, i | 1 <= i < |pages| && r in pages[i].items ensures r in rest {
          assert r in pages[1..][i - 1].items;
        }
      }
      pages[0].items + rest
  }

  /** The items of two runs of pages are the items of the first run
      followed by those of the second. */
  lemma {:induction false} ItemsConcat(a: seq<Page>, b: seq<Page>)
    ensures Items(a + b) == Items(a) + Items(b)
  {
    if a == [] {
      assert a + b == b;
    } else {
      assert (a + b)[0] == a[0] && (a + b)[1..] == a[1..] + b;
      ItemsConcat(a[1..], b);
      assert Items(a + b) == a[0].items + Items(a[1..] + b);
    }
  }

  lemma ItemsOne(p: Page)
    ensures Items([p]) == p.items
  {
    assert [p][1..] == [];
  }

  /** The ids of some records, in order. */
  function Names(rs: seq<Record>): (ids: seq<string>)
    ensures |ids| == |rs| && forall i :: 0 <= i < |rs| ==> ids[i] == rs[i].name
  {
    if rs == [] then [] else [rs[0].name] + Names(rs[1..])
  }

  /** `{r[key]: r for r in rs}`: every record under its id, a later record
      replacing an earlier one with the same id. */
  function Keyed(rs: seq<Record>): (m: map<string, Record>)
    ensures forall k :: k in m <==> exists i :: 0 <= i < |rs| && rs[i].name == k
    ensures forall k :: k in m ==> m[k].name == k
  {
    if rs == [] then map[]
    else
      var init := Keyed(rs[..|rs| - 1]);
      assert forall k :: k in init <==> exists i :: 0 <= i < |rs| - 1 && rs[i].name == k by {
        forall k | k in init ensures exists i :: 0 <= i < |rs| - 1 && rs[i].name == k {
          var i :| 0 <= i < |rs| - 1 && rs[..|rs| - 1][i].name == k;
        }
        forall k, i | 0 <= i < |rs| - 1 && rs[i].name == k ensures k in init {
          assert rs[..|rs| - 1][i].name == k;
        }
      }
      init[rs[|rs| - 1].name := rs[|rs| - 1]]
  }

  /** Folding two runs of records one after the other is `dict.update`:
      the second run's records win. */
  lemma {:induction false} KeyedConcat(a: seq<Record>, b: seq<Record>)
    ensures Keyed(a + b) == Keyed(a) + Keyed(b)
    decreases |b|
  {
    if b == [] {
      assert a + b == a;
    } else {
      var b0, last := b[..|b| - 1], b[|b| - 1];
      assert (a + b)[..|a + b| - 1] == a + b0;
      assert (a + b)[|a + b| - 1] == last;
      KeyedConcat(a, b0);
      assert Keyed(a + b) == Keyed(a + b0)[last.name := last];
      assert Keyed(b) == Keyed(b0)[last.name := last];
      UnionUpdate(Keyed(a), Keyed(b0), last.name, last);
    }
  }

  /** Updating a union updates its right-hand side. */
  lemma UnionUpdate(x: map<string, Record>, y: map<string, Record>, k: string, v: Record)
    ensures (x + y)[k := v] == x + y[k := v]
  {
    var l, r := (x + y)[k := v], x + y[k := v];
    assert l.Keys == r.Keys;
    forall j | j in l
      ensures l[j] == r[j]
    {
    }
  }

  /** Under each id lies the last record with that id. */
  lemma {:induction false} KeyedLast(rs: seq<Record>, i: nat)
    requires i < |rs|
    requires forall j :: i < j < |rs| ==> rs[j].name != rs[i].name
    ensures rs[i].name in Keyed(rs) && Keyed(rs)[rs[i].name] == rs[i]
    decreases |rs|
  {
    if i < |rs| - 1 {
      var init := rs[..|rs| - 1];
      assert init[i] == rs[i];
      KeyedLast(init, i);
    }
  }

  /** Naming two runs of records names the first, then the second. */
  lemma NamesConcat(a: seq<Record>, b: seq<Record>)
    ensures Names(a + b) == Names(a) + Names(b)
  {
    var l, r := Names(a + b), Names(a) + Names(b);
    assert |l| == |r|;
    forall i | 0 <= i < |l| ensures l[i] == r[i] {
      if i < |a| {
        assert (a + b)[i] == a[i];
      } else {
        assert (a + b)[i] == b[i - |a|];
      }
    }
  }

  /** Every record under an id is one of the records folded. */
  lemma {:induction false} KeyedFrom(rs: seq<Record>, k: string)
    requires k in Keyed(rs)
    ensures Keyed(rs)[k] in rs
    decreases |rs|
  {
    var last := rs[|rs| - 1];
    if k != last.name {
      KeyedFrom(rs[..|rs| - 1], k);
    }
  }

  /** The elements of a list, as a set. */
  function Elems(xs: seq<string>): (s: set<string>)
    ensures forall x :: x in s <==> x in xs
  {
    set x | x in xs
  }

  predicate NoDup(xs: seq<string>) {
    forall i, j :: 0 <= i < j < |xs| ==> xs[i] != xs[j]
  }

  /** A list without repeats has as many elements as its set. */
  lemma {:induction false} NoDupSize(xs: seq<string>)
    requires NoDup(xs)
    ensures |Elems(xs)| == |xs|
  {
    if xs != [] {
      var t := xs[1..];
      NoDupSize(t);
      assert xs[0] !in t by {
        forall j | 0 <= j < |t| ensures t[j] != xs[0] {
          assert t[j] == xs[j + 1];
        }
      }
      assert Elems(xs) == Elems(t) + {xs[0]};
    }
  }

  /** A list without repeats holds each of its elements once. */
  lemma {:induction false} NoDupOnce(xs: seq<string>, x: string)
    requires NoDup(xs) && x in xs
    ensures multiset(xs)[x] == 1
  {
    var t := xs[1..];
    assert xs == [xs[0]] + t;
    assert NoDup(t) by {
      forall i, j | 0 <= i < j < |t| ensures t[i] != t[j] {
        assert t[i] == xs[i + 1] && t[j] == xs[j + 1];
      }
    }
    assert xs[0] !in t by {
      forall j | 0 <= j < |t| ensures t[j] != xs[0] {
        assert t[j] == xs[j + 1];
      }
    }
    if x == xs[0] {
      assert multiset(t)[x] == 0;
    } else {
      NoDupOnce(t, x);
    }
  }

  /** `list(s)`: the elements of a set, each once, in an order Python
      does not promise. */
  method AsList(s: set<string>) returns (xs: seq<string>)
    ensures NoDup(xs) && Elems(xs) == s && |xs| == |s|
  {
    xs := [];
    var rest := s;
    while rest != {}
      invariant NoDup(xs) && Elems(xs) + rest == s && Elems(xs) !! rest
      decreases |rest|
    {
      var x :| x in rest;
      xs := xs + [x];
      rest := rest - {x};
    }
    NoDupSize(xs);
  }

  /** One group of the scan report: the ghost ids, their count, and with
      `detailed` the live record of each id (an id without a record gets
      `None`, as `dict.get` gives). */
  datatype Entry = Entry(ids: seq<string>, count: nat, resources: Option<seq<Option<Record>>>)

  /** `resources[i]` is the record of `ids[i]` in `m`. */
  function Aligned(ids: seq<string>, m: map<string, Record>): (rs: seq<Option<Record>>)
    ensures |rs| == |ids|
    ensures forall i :: 0 <= i < |ids| ==> rs[i] == if ids[i] in m then Some(m[ids[i]]) else None
  {
    seq(|ids|, i requires 0 <= i < |ids| => if ids[i] in m then Some(m[ids[i]]) else None)
  }

  /** The scan report, filled in by the comparator and changed in place by
      a service's hook. */
  class Ghosts {
    var entries: map<string, Entry>

    constructor ()
      ensures entries == map[]
    {
      entries := map[];
    }

    /** `ghosts[group] = entry`. */
    method Put(group: string, entry: Entry)
      modifies this
      ensures entries == old(entries)[group := entry]
    {
      entries := entries[group := entry];
    }
  }
}
