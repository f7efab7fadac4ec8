/** core/dir_history.go: the bounded directory list of each project, against the full history of adds. */
module DirHistory {
  /** Where d was last added, or -1. */
  function LastIndex(h: seq<string>, d: string): (i: int)
    ensures -1 <= i < |h|
    ensures i >= 0 ==> h[i] == d
    ensures forall j :: i < j < |h| ==> h[j] != d
  {
    if h == [] then -1
    else if h[|h| - 1] == d then |h| - 1
    else LastIndex(h[..|h| - 1], d)
  }

  /** r lists every directory of h exactly once, the most recently added first. */
  ghost predicate IsRecency(h: seq<string>, r: seq<string>) {
    && (forall d :: d in r <==> d in h)
    && (forall i, j :: 0 <= i < j < |r| ==> LastIndex(h, r[i]) > LastIndex(h, r[j]))
  }

  function Drop(l: seq<string>, d: string): (r: seq<string>)
    ensures forall x :: x in r <==> x in l && x != d
  {
    if l == [] then [] else if l[0] == d then Drop(l[1..], d) else [l[0]] + Drop(l[1..], d)
  }

  /** The full, unbounded most-recent-first list. */
  function Recent(h: seq<string>): seq<string> {
    if h == [] then [] else [h[|h| - 1]] + Drop(Recent(h[..|h| - 1]), h[|h| - 1])
  }

  lemma {:induction false} DropKeepsOrder(h: seq<string>, l: seq<string>, d: string)
    requires forall i, j :: 0 <= i < j < |l| ==> LastIndex(h, l[i]) > LastIndex(h, l[j])
    ensures forall i, j :: 0 <= i < j < |Drop(l, d)| ==> LastIndex(h, Drop(l, d)[i]) > LastIndex(h, Drop(l, d)[j])
  {
    if l != [] {
      DropKeepsOrder(h, l[1..], d);
      var r := Drop(l[1..], d);
      if l[0] != d {
        forall j | 0 <= j < |r|
          ensures LastIndex(h, l[0]) > LastIndex(h, r[j])
        {
          assert r[j] in l[1..];
          var k :| 0 <= k < |l[1..]| && l[1..][k] == r[j];
          assert l[k + 1] == r[j];
        }
      }
    }
  }

  /** Recent is the list the declarative definition describes. */
  lemma {:induction false} RecentIsRecency(h: seq<string>)
    ensures IsRecency(h, Recent(h))
  {
    if h != [] {
      var n := |h| - 1;
      var d, r := h[n], Recent(h[..n]);
      RecentIsRecency(h[..n]);
      DropKeepsOrder(h[..n], r, d);
      assert h == h[..n] + [d];
      var s := Drop(r, d);
      forall i | 0 <= i < |s|
        ensures LastIndex(h, s[i]) == LastIndex(h[..n], s[i])
      {
        assert s[i] in s;
      }
    }
  }

  ghost predicate Descending(h: seq<string>, r: seq<string>) {
    forall i, j :: 0 <= i < j < |r| ==> LastIndex(h, r[i]) > LastIndex(h, r[j])
  }

  lemma {:induction false} DescendingUnique(h: seq<string>, r: seq<string>, s: seq<string>)
    requires Descending(h, r) && Descending(h, s) && forall d :: d in r <==> d in s
    ensures r == s
    decreases |r|
  {
    if r == [] {
      assert forall i :: 0 <= i < |s| ==> s[i] in s;
    } else {
      assert r[0] in r && s != [];
      assert s[0] in s;
      var i :| 0 <= i < |s| && s[i] == r[0];
      var j :| 0 <= j < |r| && r[j] == s[0];
      assert r[0] == s[0];
      forall d
        ensures d in r[1..] <==> d in s[1..]
      {
        TailMembers(h, r, d);
        TailMembers(h, s, d);
      }
      DescendingUnique(h, r[1..], s[1..]);
    }
  }

  lemma TailMembers(h: seq<string>, r: seq<string>, d: string)
    requires Descending(h, r) && r != []
    ensures d in r[1..] <==> d in r && d != r[0]
  {
    if d in r[1..] {
      var k :| 0 <= k < |r[1..]| && r[1..][k] == d;
      assert LastIndex(h, r[0]) > LastIndex(h, r[k + 1]);
    }
    assert r == [r[0]] + r[1..];
  }

  /** There is only one such list. */
  lemma RecencyUnique(h: seq<string>, r: seq<string>, s: seq<string>)
    requires IsRecency(h, r) && IsRecency(h, s)
    ensures r == s
  {
    DescendingUnique(h, r, s);
  }

  function Min(a: nat, b: nat): nat {
    if a <= b then a else b
  }

  /** First occurrence taken out: what the loop of Add does. */
  function RemoveFirst(l: seq<string>, d: string): seq<string> {
    if l == [] then [] else if l[0] == d then l[1..] else [l[0]] + RemoveFirst(l[1..], d)
  }

  function Added(l: seq<string>, d: string, max: nat): seq<string> {
    var m := [d] + RemoveFirst(l, d);
    if |m| > max then m[..max] else m
  }

  lemma {:induction false} RemoveFirstAt(l: seq<string>, i: nat, d: string)
    requires i < |l| && l[i] == d && d !in l[..i]
    ensures RemoveFirst(l, d) == l[..i] + l[i + 1..]
  {
    if i > 0 {
      assert l[0] in l[..i];
      assert l[1..][..i - 1] == l[..i][1..];
      RemoveFirstAt(l[1..], i - 1, d);
      assert l[..i] == [l[0]] + l[1..][..i - 1];
    }
  }

  lemma {:induction false} RemoveFirstAbsent(l: seq<string>, d: string)
    requires d !in l
    ensures RemoveFirst(l, d) == l
  {
    if l != [] {
      RemoveFirstAbsent(l[1..], d);
    }
  }

  predicate Distinct(l: seq<string>) {
    forall i, j :: 0 <= i < j < |l| ==> l[i] != l[j]
  }

  lemma {:induction false} DropLength(full: seq<string>, d: string)
    requires Distinct(full)
    ensures |Drop(full, d)| == if d in full then |full| - 1 else |full|
  {
    if full != [] {
      DropLength(full[1..], d);
      assert full == [full[0]] + full[1..];
    }
  }

  /** Removing from a prefix of a list without repetitions gives a prefix of the list with the
      element dropped. */
  lemma {:induction false} RemoveFromPrefix(full: seq<string>, k: nat, d: string)
    requires k <= |full| && Distinct(full)
    ensures RemoveFirst(full[..k], d) <= Drop(full, d)
    ensures |RemoveFirst(full[..k], d)| == if d in full[..k] then k - 1 else k
  {
    if k > 0 {
      var rest := full[1..];
      assert full[..k] == [full[0]] + rest[..k - 1];
      if full[0] == d {
        DropAbsent(rest, d);
      } else {
        RemoveFromPrefix(rest, k - 1, d);
      }
    }
  }

  lemma {:induction false} DropAbsent(l: seq<string>, d: string)
    requires d !in l
    ensures Drop(l, d) == l
  {
    if l != [] {
      DropAbsent(l[1..], d);
    }
  }

  lemma RecentDistinct(h: seq<string>)
    ensures Distinct(Recent(h))
  {
    RecentIsRecency(h);
  }

  /** One add keeps the stored list a prefix of the full one, and a full-length prefix of it as long
      as the bound has not changed. */
  lemma AddedIsPrefix(h: seq<string>, l: seq<string>, d: string, max: nat)
    requires l <= Recent(h)
    ensures Added(l, d, max) <= Recent(h + [d])
    ensures |l| == Min(max, |Recent(h)|) && max > 0 ==> |Added(l, d, max)| == Min(max, |Recent(h + [d])|)
  {
    var full, k := Recent(h), |l|;
    assert (h + [d])[..|h|] == h;
    RecentDistinct(h);
    assert l == full[..k];
    RemoveFromPrefix(full, k, d);
    DropLength(full, d);
    if d !in full {
      assert d !in full[..k];
    }
  }

  // --- The class ---

  const DEFAULT_SIZE: nat := 10

  type Lists = map<string, seq<string>>

  function At(m: Lists, project: string): seq<string> {
    if project in m then m[project] else []
  }

  /** Every stored list is a prefix of the full most-recent-first list. */
  ghost predicate Prefixes(entries: Lists, history: Lists) {
    forall p :: At(entries, p) <= Recent(At(history, p))
  }

  /** Every stored list is as long as the bound allows. */
  ghost predicate AllFull(entries: Lists, history: Lists, max: nat) {
    forall p :: |At(entries, p)| == Min(max, |Recent(At(history, p))|)
  }

  lemma AddKeeps(entries: Lists, history: Lists, project: string, dir: string, max: nat)
    requires Prefixes(entries, history) && max > 0
    ensures var e := entries[project := Added(At(entries, project), dir, max)];
            var h := history[project := At(history, project) + [dir]];
            Prefixes(e, h) && (AllFull(entries, history, max) ==> AllFull(e, h, max))
  {
    var e := entries[project := Added(At(entries, project), dir, max)];
    var h := history[project := At(history, project) + [dir]];
    AddedIsPrefix(At(history, project), At(entries, project), dir, max);
    forall p
      ensures At(e, p) <= Recent(At(h, p))
      ensures AllFull(entries, history, max) ==> |At(e, p)| == Min(max, |Recent(At(h, p))|)
    {
      if p != project {
        assert At(e, p) == At(entries, p) && At(h, p) == At(history, p);
      }
    }
  }

  /** The body of Add on one project's list. */
  method MoveToFront(list: seq<string>, dir: string, max: nat) returns (r: seq<string>)
    ensures r == Added(list, dir, max)
  {
    var i := 0;
    while i < |list| && list[i] != dir
      invariant 0 <= i <= |list| && dir !in list[..i]
    {
      i := i + 1;
    }
    r := list;
    if i < |list| {
      RemoveFirstAt(list, i, dir);
      r := list[..i] + list[i + 1..];
    } else {
      assert list[..i] == list;
      RemoveFirstAbsent(list, dir);
    }
    r := [dir] + r;
    if |r| > max {
      r := r[..max];
    }
  }

  class DirHistory {
    var entries: Lists
    var maxSize: nat
    ghost var history: Lists  // every non-empty add since the empty start

    ghost function Log(project: string): seq<string>
      reads this
    {
      At(history, project)
    }

    function Stored(project: string): seq<string>
      reads this
    {
      At(entries, project)
    }

    ghost predicate Valid()
      reads this
    {
      maxSize > 0 && Prefixes(entries, history)
    }

    ghost predicate Full()
      reads this
    {
      AllFull(entries, history, maxSize)
    }

    constructor ()
      ensures Valid() && Full() && maxSize == 10 && entries == map[] && history == map[]
    {
      entries, history, maxSize := map[], map[], DEFAULT_SIZE;
    }

    method Add(project: string, dir: string)
      requires Valid()
      modifies this
      ensures Valid() && maxSize == old(maxSize)
      ensures old(Full()) ==> Full()
      ensures dir == "" ==> entries == old(entries) && history == old(history)
      ensures dir != "" ==> entries == old(entries)[project := Added(old(Stored(project)), dir, maxSize)]
      ensures dir != "" ==> history == old(history)[project := old(Log(project)) + [dir]]
    {
      if dir == "" {
        return;
      }
      AddKeeps(entries, history, project, dir, maxSize);
      var list := MoveToFront(Stored(project), dir, maxSize);
      entries := entries[project := list];
      history := history[project := Log(project) + [dir]];
    }

    method List(project: string) returns (dirs: seq<string>)
      requires Valid()
      ensures dirs == Stored(project) && dirs <= Recent(Log(project))
    {
      dirs := Stored(project);
    }

    /** 1-based; empty when out of range. */
    method Get(project: string, index: int) returns (dir: string)
      requires Valid()
      ensures 1 <= index <= |Stored(project)| ==> dir == Recent(Log(project))[index - 1]
      ensures !(1 <= index <= |Stored(project)|) ==> dir == ""
    {
      var list := Stored(project);
      if index < 1 || index > |list| {
        return "";
      }
      return list[index - 1];
    }

    method Contains(project: string, dir: string) returns (found: bool)
      requires Valid()
      ensures found <==> dir in Stored(project)
      ensures found ==> dir in Log(project)
    {
      var list := Stored(project);
      found := false;
      for i := 0 to |list|
        invariant !found ==> dir !in list[..i]
      {
        if list[i] == dir {
          RecentIsRecency(Log(project));
          return true;
        }
      }
    }

    method SetMaxSize(size: int)
      requires Valid()
      modifies this
      ensures Valid() && maxSize == (if size < 1 then 1 else size) && entries == old(entries) && history == old(history)
    {
      maxSize := if size < 1 then 1 else size;
    }
  }

  // --- Whole runs with a fixed bound ---

  function Run(l: seq<string>, adds: seq<string>, max: nat): seq<string> {
    if adds == [] then l else Added(Run(l, adds[..|adds| - 1], max), adds[|adds| - 1], max)
  }

  /** From empty, after any adds, the bounded list is the full most-recent-first list cut to the
      bound. */
  lemma {:induction false} BoundedIsTruncated(adds: seq<string>, max: nat)
    requires max > 0
    ensures Run([], adds, max) == Recent(adds)[..Min(max, |Recent(adds)|)]
  {
    if adds != [] {
      var n := |adds| - 1;
      BoundedIsTruncated(adds[..n], max);
      AddedIsPrefix(adds[..n], Run([], adds[..n], max), adds[n], max);
      assert adds == adds[..n] + [adds[n]];
    }
  }

  /** Hence no repetitions, and the same list whatever equivalent way the full list is computed. */
  lemma BoundedListMeaning(adds: seq<string>, max: nat, full: seq<string>)
    requires max > 0 && IsRecency(adds, full)
    ensures Run([], adds, max) == full[..Min(max, |full|)]
    ensures Distinct(Run([], adds, max))
  {
    BoundedIsTruncated(adds, max);
    RecentIsRecency(adds);
    RecencyUnique(adds, full, Recent(adds));
  }
}
