/** config/config.go: mergeAllowFromValue, which adds a user to a comma-separated allow list. */
module AllowFrom {
  import opened SeqFacts
  import opened Text

  /** The trimmed non-empty parts, in order. */
  function Clean(parts: seq<string>): seq<string> {
    if parts == [] then []
    else
      var last := TrimSpace(parts[|parts| - 1]);
      Clean(parts[..|parts| - 1]) + (if last == "" then [] else [last])
  }

  /** The entries of an allow list. */
  function Items(list: string): seq<string> {
    Clean(Split(list, ','))
  }

  /** First occurrences, in order. */
  function Dedup(items: seq<string>): seq<string> {
    if items == [] then []
    else
      var rest, last := Dedup(items[..|items| - 1]), items[|items| - 1];
      if last in rest then rest else rest + [last]
  }

  /** The merge of a trimmed list and a trimmed user. */
  function MergedTrimmed(c: string, u: string): string {
    if c == "*" || u == "" then c
    else if c == "" then u
    else if "*" in Items(c) || u == "*" then "*"
    else Join(Dedup(Items(c) + [u]), ',')
  }

  function Merged(current: string, user: string): string {
    MergedTrimmed(TrimSpace(current), TrimSpace(user))
  }

  /** No entry occurs among the ones in front of it. */
  predicate Distinct(items: seq<string>) {
    items != [] ==>
      var front := items[..|items| - 1];
      items[|items| - 1] !in front && Distinct(front)
  }

  lemma {:induction false} DistinctIndices(items: seq<string>, i: nat, j: nat)
    requires Distinct(items) && i < j < |items|
    ensures items[i] != items[j]
  {
    var n := |items| - 1;
    if j < n {
      DistinctIndices(items[..n], i, j);
    } else {
      assert items[i] == items[..n][i];
    }
  }

  lemma CleanStep(parts: seq<string>, k: nat)
    requires k < |parts|
    ensures Clean(parts[..k + 1]) == Clean(parts[..k]) + (if TrimSpace(parts[k]) == "" then [] else [TrimSpace(parts[k])])
  {
    assert parts[..k + 1][..k] == parts[..k];
  }

  lemma DedupStep(items: seq<string>, x: string)
    ensures Dedup(items + [x]) == if x in Dedup(items) then Dedup(items) else Dedup(items) + [x]
  {
    assert (items + [x])[..|items|] == items;
  }

  lemma {:induction false} DedupMember(items: seq<string>, x: string)
    ensures x in Dedup(items) <==> x in items
  {
    if items != [] {
      DedupMember(items[..|items| - 1], x);
      assert items == items[..|items| - 1] + [items[|items| - 1]];
    }
  }

  lemma DistinctSnoc(front: seq<string>, x: string)
    requires Distinct(front) && x !in front
    ensures Distinct(front + [x])
  {
    assert (front + [x])[..|front|] == front;
  }

  lemma {:induction false} DedupDistinct(items: seq<string>)
    ensures Distinct(Dedup(items))
  {
    if items != [] {
      var n := |items| - 1;
      DedupDistinct(items[..n]);
      if items[n] !in Dedup(items[..n]) { DistinctSnoc(Dedup(items[..n]), items[n]); }
    }
  }

  lemma DedupSame(items: seq<string>)
    ensures forall x :: x in Dedup(items) <==> x in items
    ensures Distinct(Dedup(items))
  {
    DedupDistinct(items);
    forall x
      ensures x in Dedup(items) <==> x in items
    {
      DedupMember(items, x);
    }
  }

  /** One part of the list, or the user, goes into the accumulators. */
  method AppendPart(v: string, merged: seq<string>, seen: set<string>) returns (merged': seq<string>, seen': set<string>)
    ensures var t := TrimSpace(v);
            if t == "" then merged' == merged && seen' == seen
            else if t == "*" then merged' == ["*"] && seen' == seen
            else if t in seen then merged' == merged && seen' == seen
            else merged' == merged + [t] && seen' == seen + {t}
  {
    var t := TrimSpace(v);
    merged', seen' := merged, seen;
    if t == "" {
      return;
    }
    if t == "*" {
      merged' := ["*"];
      return;
    }
    if t in seen {
      return;
    }
    seen' := seen + {t};
    merged' := merged + [t];
  }

  /** The accumulators after these entries. */
  ghost predicate Collected(done: seq<string>, merged: seq<string>, seen: set<string>) {
    && ("*" in done ==> merged == ["*"])
    && ("*" !in done ==> merged == Dedup(done) && forall x :: x in seen <==> x in merged)
  }

  lemma CollectedStar(done: seq<string>, merged: seq<string>, seen: set<string>)
    requires Collected(done, merged, seen)
    ensures merged == ["*"] <==> "*" in done
  {
    DedupSame(done);
  }

  lemma CollectOne(done: seq<string>, t: string, merged: seq<string>, seen: set<string>)
    requires Collected(done, merged, seen) && "*" !in done && t != ""
    ensures t == "*" ==> Collected(done + [t], ["*"], seen)
    ensures t != "*" && t in seen ==> Collected(done + [t], merged, seen)
    ensures t != "*" && t !in seen ==> Collected(done + [t], merged + [t], seen + {t})
  {
    DedupStep(done, t);
  }

  /** The loop over the existing entries; it stops early once "*" has been seen. */
  method CollectParts(parts: seq<string>) returns (merged: seq<string>, seen: set<string>)
    ensures Collected(Clean(parts), merged, seen)
  {
    merged, seen := [], {};
    ghost var done: seq<string> := [];
    var k := 0;
    while k < |parts|
      invariant 0 <= k <= |parts|
      invariant done == Clean(parts[..k]) && Collected(done, merged, seen)
    {
      CollectedStar(done, merged, seen);
      if merged == ["*"] {
        CleanGrows(parts, k);
        return;
      }
      ghost var t := TrimSpace(parts[k]);
      CleanStep(parts, k);
      if t != "" {
        CollectOne(done, t, merged, seen);
      }
      merged, seen := AppendPart(parts[k], merged, seen);
      done := if t == "" then done else done + [t];
      k := k + 1;
    }
    assert parts[..k] == parts;
  }

  method Merge(current: string, user: string) returns (r: string)
    ensures r == Merged(current, user)
  {
    var c, u := TrimSpace(current), TrimSpace(user);
    if c == "*" || u == "" {
      return c;
    }
    if c == "" {
      return u;
    }
    var merged, seen := CollectParts(Split(c, ','));
    CollectedStar(Items(c), merged, seen);
    if merged == ["*"] {
      return "*";
    }
    TrimIdempotent(user);
    CollectOne(Items(c), u, merged, seen);
    merged, seen := AppendPart(u, merged, seen);
    CollectedStar(Items(c) + [u], merged, seen);
    if merged == ["*"] {
      return "*";
    }
    r := Join(merged, ',');
  }

  lemma {:induction false} CleanGrows(parts: seq<string>, k: nat)
    requires k <= |parts|
    ensures forall x :: x in Clean(parts[..k]) ==> x in Clean(parts)
    decreases |parts| - k
  {
    if k == |parts| {
      assert parts[..k] == parts;
    } else {
      CleanStep(parts, k);
      CleanGrows(parts, k + 1);
    }
  }

  // --- What the merged list means ---

  ghost function Entries(list: string): set<string> {
    set x | x in Items(list)
  }

  /** Entries are trimmed, not empty and free of commas. */
  ghost predicate CleanItems(items: seq<string>) {
    forall x :: x in items ==> x != "" && Trimmed(x) && Free(x, ',')
  }

  lemma TrimFree(s: string, sep: char)
    requires Free(s, sep)
    ensures Free(TrimSpace(s), sep)
  {
    var a, b := TrimSplits(s);
    var t := TrimSpace(s);
    forall i | 0 <= i < |t|
      ensures t[i] != sep
    {
      assert t[i] == s[|a| + i];
    }
  }

  lemma {:induction false} CleanIsClean(parts: seq<string>)
    requires AllFree(parts, ',')
    ensures CleanItems(Clean(parts))
  {
    if parts != [] {
      var last := parts[|parts| - 1];
      CleanIsClean(parts[..|parts| - 1]);
      var a, b := TrimSplits(last);
      TrimFree(last, ',');
    }
  }

  lemma CleanSplit(items: seq<string>, n: nat)
    requires CleanItems(items) && n < |items|
    ensures CleanItems(items[..n])
    ensures items[n] != "" && Trimmed(items[n]) && Free(items[n], ',')
  {
    assert items[n] in items;
    forall x | x in items[..n]
      ensures x in items
    {
    }
  }

  lemma {:induction false} CleanSnoc(front: seq<string>, last: string)
    requires TrimSpace(last) == last && last != "" && Clean(front) == front
    ensures Clean(front + [last]) == front + [last]
  {
    var items := front + [last];
    assert items[..|items| - 1] == front && items[|items| - 1] == last;
  }

  lemma {:induction false} CleanAlready(items: seq<string>)
    requires CleanItems(items)
    ensures Clean(items) == items
  {
    if items != [] {
      var n := |items| - 1;
      CleanSplit(items, n);
      CleanAlready(items[..n]);
      TrimTrimmed(items[n]);
      CleanSnoc(items[..n], items[n]);
      assert items == items[..n] + [items[n]];
    }
  }

  /** Writing entries out and reading them back gives the same entries in the same order. */
  lemma ItemsOfJoin(items: seq<string>)
    requires items != [] && CleanItems(items)
    ensures Items(Join(items, ',')) == items
  {
    assert AllFree(items, ',') by {
      forall i | 0 <= i < |items|
        ensures Free(items[i], ',')
      {
        assert items[i] in items;
      }
    }
    SplitJoin(items, ',');
    CleanAlready(items);
  }

  lemma ItemsClean(list: string)
    ensures CleanItems(Items(list))
  {
    SplitFree(list, ',');
    CleanIsClean(Split(list, ','));
  }

  /** White space around the whole list does not change its entries. */
  lemma ItemsOfOne(u: string)
    requires u != "" && Trimmed(u) && Free(u, ',')
    ensures Items(u) == [u]
  {
    SplitOne(u, ',');
    CleanAlready([u]);
  }

  lemma NoItems()
    ensures Items("") == []
  {
    assert Split("", ',') == [""];
    TrimTrimmed("");
  }

  lemma MergedTrimmedItems(c: string, u: string)
    requires Trimmed(u) && Free(u, ',') && u != ""
    ensures Items(MergedTrimmed(c, u)) == if "*" in Items(c) || u == "*" then ["*"] else Dedup(Items(c) + [u])
  {
    StarItems();
    if c == "*" {
    } else if c == "" {
      NoItems();
      ItemsOfOne(u);
      DedupStep([], u);
      assert [] + [u] == [u];
    } else if "*" !in Items(c) && u != "*" {
      ItemsClean(c);
      DedupSame(Items(c) + [u]);
      assert u in Items(c) + [u];
      ItemsOfJoin(Dedup(Items(c) + [u]));
    }
  }

  /** The entries after a merge, in order: the universal entry if there is one among the old ones or
      the user, otherwise the old ones without repetitions, then the user if new. */
  lemma MergedItems(current: string, user: string)
    requires Free(user, ',') && TrimSpace(user) != ""
    ensures var was, u := Items(TrimSpace(current)), TrimSpace(user);
            Items(Merged(current, user)) == if "*" in was || u == "*" then ["*"] else Dedup(was + [u])
  {
    var a, b := TrimSplits(user);
    TrimFree(user, ',');
    MergedTrimmedItems(TrimSpace(current), TrimSpace(user));
  }

  lemma MergedTrimmedText(c: string, u: string)
    requires Trimmed(u) && Free(u, ',') && u != ""
    ensures MergedTrimmed(c, u) == Join(Items(MergedTrimmed(c, u)), ',')
  {
    MergedTrimmedItems(c, u);
    StarItems();
    if c == "" {
      ItemsOfOne(u);
    } else if c != "*" && "*" !in Items(c) && u != "*" {
      assert MergedTrimmed(c, u) == Join(Dedup(Items(c) + [u]), ',');
    } else {
      assert MergedTrimmed(c, u) == "*" && Join(["*"], ',') == "*";
    }
  }

  /** The text is those entries with a single comma between them and nothing else; a blank user leaves the
      trimmed list alone. */
  lemma MergedText(current: string, user: string)
    requires Free(user, ',')
    ensures Merged(current, user)
         == if TrimSpace(user) == "" then TrimSpace(current) else Join(Items(Merged(current, user)), ',')
  {
    if TrimSpace(user) != "" {
      var a, b := TrimSplits(user);
      TrimFree(user, ',');
      MergedTrimmedText(TrimSpace(current), TrimSpace(user));
    }
  }

  lemma EntriesOfMerge(was: seq<string>, u: string, items: seq<string>)
    requires items == if "*" in was || u == "*" then ["*"] else Dedup(was + [u])
    ensures var all := (set x | x in was) + {u};
            (set x | x in items) == if "*" in all then {"*"} else all
  {
    forall x
      ensures x in Dedup(was + [u]) <==> x in was || x == u
    {
      DedupMember(was + [u], x);
    }
  }

  /** Union: exactly the old entries plus the user, or the universal list. */
  lemma MergeIsUnion(current: string, user: string)
    requires Free(user, ',') && TrimSpace(user) != ""
    ensures var all := Entries(TrimSpace(current)) + {TrimSpace(user)};
            Entries(Merged(current, user)) == if "*" in all then {"*"} else all
  {
    MergedItems(current, user);
    EntriesOfMerge(Items(TrimSpace(current)), TrimSpace(user), Items(Merged(current, user)));
  }

  lemma NoRepeats(current: string, user: string, i: nat, j: nat)
    requires Free(user, ',') && TrimSpace(user) != ""
    requires i < j < |Items(Merged(current, user))|
    ensures Items(Merged(current, user))[i] != Items(Merged(current, user))[j]
  {
    MergedItems(current, user);
    DedupSame(Items(TrimSpace(current)) + [TrimSpace(user)]);
    DistinctIndices(Items(Merged(current, user)), i, j);
  }

  lemma {:induction false} DedupFixed(items: seq<string>)
    requires Distinct(items)
    ensures Dedup(items) == items
  {
    if items != [] {
      var n := |items| - 1;
      DedupFixed(items[..n]);
      assert items == items[..n] + [items[n]];
    }
  }

  lemma {:induction false} JoinTrimmed(items: seq<string>)
    requires items != [] && CleanItems(items)
    ensures Join(items, ',') != "" && Trimmed(Join(items, ','))
  {
    assert items[0] in items;
    if |items| > 1 {
      assert CleanItems(items[1..]) by { assert forall x :: x in items[1..] ==> x in items; }
      JoinTrimmed(items[1..]);
      var j := Join(items[1..], ',');
      assert Join(items, ',') == items[0] + [','] + j;
    }
  }

  lemma RemergeClean(items: seq<string>, u: string)
    requires items != [] && CleanItems(items) && u in items && "*" !in items
    requires Distinct(items)
    ensures MergedTrimmed(Join(items, ','), u) == Join(items, ',')
  {
    JoinTrimmed(items);
    ItemsOfJoin(items);
    DedupFixed(items);
    DedupStep(items, u);
    assert Join(items, ',') != "*" by { StarItems(); }
  }

  lemma StarItems()
    ensures Items("*") == ["*"]
  {
    ItemsOfOne("*");
  }

  /** Merging into the merged list again, everything trimmed. */
  lemma MergedTwice(c: string, u: string)
    requires Trimmed(c) && Trimmed(u) && Free(u, ',')
    ensures Trimmed(MergedTrimmed(c, u))
    ensures MergedTrimmed(MergedTrimmed(c, u), u) == MergedTrimmed(c, u)
  {
    if u == "" || c == "*" {
    } else if c == "" {
      ItemsOfOne(u);
      assert [u] == [u] + [];
      RemergeOne(u);
    } else if "*" !in Items(c) && u != "*" {
      var items := Dedup(Items(c) + [u]);
      ItemsClean(c);
      DedupSame(Items(c) + [u]);
      assert u in Items(c) + [u];
      JoinTrimmed(items);
      RemergeClean(items, u);
    }
  }

  lemma RemergeOne(u: string)
    requires u != "" && Trimmed(u) && Free(u, ',')
    ensures MergedTrimmed(u, u) == u
  {
    if u != "*" {
      ItemsOfOne(u);
      assert CleanItems([u]);
      RemergeClean([u], u);
      assert Join([u], ',') == u;
    }
  }

  // --- A user id with a comma in it ---

  lemma {:induction false} JoinParts(a: seq<string>, b: seq<string>)
    requires a != [] && b != []
    ensures Join(a + b, ',') == Join(a, ',') + [','] + Join(b, ',')
  {
    if |a| == 1 {
      assert (a + b)[1..] == b;
    } else {
      assert (a + b)[1..] == a[1..] + b;
      JoinParts(a[1..], b);
      JoinHead(a);
      JoinHead(a + b);
      Assoc(a[0] + [','], Join(a[1..], ','), [',']);
      Assoc(a[0] + [','], Join(a[1..], ',') + [','], Join(b, ','));
    }
  }

  lemma JoinHead(a: seq<string>)
    requires |a| > 1
    ensures Join(a, ',') == a[0] + [','] + Join(a[1..], ',')
  {
  }

  /** One more entry in front of the last makes the text longer. */
  lemma JoinLonger(a: seq<string>, e: seq<string>, u: string)
    requires e != []
    ensures |Join(a + e + [u], ',')| > |Join(a + [u], ',')|
  {
    JoinParts(e, [u]);
    if a == [] {
      assert a + e + [u] == e + [u] && a + [u] == [u];
    } else {
      assert a + e + [u] == a + (e + [u]);
      JoinParts(a, e + [u]);
      JoinParts(a, [u]);
    }
  }

  lemma {:induction false} SplitBehind(items: seq<string>, u: string)
    requires AllFree(items, ',')
    ensures Split(Join(items + [u], ','), ',') == items + Split(u, ',')
  {
    if items == [] {
      assert items + [u] == [u] && items + Split(u, ',') == Split(u, ',');
    } else {
      var rest := Join(items[1..] + [u], ',');
      assert (items + [u])[1..] == items[1..] + [u];
      SplitBehind(items[1..], u);
      SplitAt(items[0], rest, ',');
      assert items == [items[0]] + items[1..];
      Assoc([items[0]], items[1..], Split(u, ','));
    }
  }

  lemma {:induction false} CleanParts(a: seq<string>, b: seq<string>)
    ensures Clean(a + b) == Clean(a) + Clean(b)
  {
    if b == [] {
      assert a + b == a && Clean(a) + [] == Clean(a);
    } else {
      var n := |b| - 1;
      assert (a + b)[..|a + b| - 1] == a + b[..n];
      CleanParts(a, b[..n]);
      Assoc(Clean(a), Clean(b[..n]), if TrimSpace(b[n]) == "" then [] else [TrimSpace(b[n])]);
    }
  }

  /** Entries written out with the user behind them: read back, the user falls apart at its commas. */
  lemma ItemsBehind(items: seq<string>, u: string)
    requires CleanItems(items)
    ensures Items(Join(items + [u], ',')) == items + Items(u)
  {
    assert AllFree(items, ',') by { assert forall i :: 0 <= i < |items| ==> items[i] in items; }
    SplitBehind(items, u);
    CleanParts(items, Split(u, ','));
    CleanAlready(items);
  }

  /** What the entries of b add behind those of a. */
  lemma {:induction false} DedupExtends(a: seq<string>, b: seq<string>) returns (extra: seq<string>)
    ensures Dedup(a + b) == Dedup(a) + extra
    ensures extra == [] <==> forall x :: x in b ==> x in a
  {
    if b == [] {
      extra := [];
      assert a + b == a && Dedup(a) + [] == Dedup(a);
    } else {
      var front, last := b[..|b| - 1], b[|b| - 1];
      assert b == front + [last] && a + b == a + front + [last];
      var e := DedupExtends(a, front);
      DedupStep(a + front, last);
      DedupMember(a + front, last);
      if last in a + front {
        extra := e;
        assert last in front ==> (extra == [] ==> last in a);
      } else {
        extra := e + [last];
        Assoc(Dedup(a), e, [last]);
      }
    }
  }

  /** A second merge of a user with a comma, behind the entries `was` without repetition. */
  lemma CommaRemerge(was: seq<string>, u: string)
    requires CleanItems(was) && Distinct(was) && "*" !in was && u != "" && Trimmed(u) && !Free(u, ',')
    ensures var m := Join(was + [u], ',');
            Trimmed(m) && (MergedTrimmed(m, u) == m <==> forall x :: x in Items(u) ==> x in was)
  {
    var m := Join(was + [u], ',');
    BehindTrimmed(was, u);
    ItemsBehind(was, u);
    if "*" in Items(u) {
      assert MergedTrimmed(m, u) == "*";
    } else {
      var extra := DedupExtends(was, Items(u));
      DedupFixed(was);
      assert u !in was + Items(u) by { CommaNotIn(was, u); ItemsClean(u); CommaNotIn(Items(u), u); }
      DedupStep(was + Items(u), u);
      DedupMember(was + Items(u), u);
      if extra == [] {
        assert was + extra == was;
      } else {
        JoinLonger(was, extra, u);
      }
    }
  }

  lemma CommaNotIn(items: seq<string>, u: string)
    requires CleanItems(items) && !Free(u, ',')
    ensures u !in items
  {
  }

  lemma BehindTrimmed(was: seq<string>, u: string)
    requires CleanItems(was) && u != "" && Trimmed(u) && !Free(u, ',')
    ensures var m := Join(was + [u], ','); Trimmed(m) && m != "" && m != "*"
  {
    var m := Join(was + [u], ',');
    if was == [] {
      assert was + [u] == [u];
    } else {
      JoinParts(was, [u]);
      JoinTrimmed(was);
      assert m[|Join(was, ',')|] == ',';
    }
  }

  lemma MergedOfComma(c: string, u: string)
    requires c != "*" && u != "" && !Free(u, ',') && "*" !in Items(c)
    ensures MergedTrimmed(c, u) == Join(Dedup(Items(c)) + [u], ',')
  {
    ItemsClean(c);
    CommaNotIn(Items(c), u);
    DedupStep(Items(c), u);
    DedupMember(Items(c), u);
    if c == "" {
      NoItems();
      assert Dedup(Items(c)) + [u] == [u];
    } else {
      assert u != "*";
    }
  }

  lemma MergedTwiceIff(c: string, u: string)
    requires Trimmed(c) && Trimmed(u)
    ensures Trimmed(MergedTrimmed(c, u))
    ensures MergedTrimmed(MergedTrimmed(c, u), u) == MergedTrimmed(c, u)
       <==> Free(u, ',') || "*" in Items(c) || forall x :: x in Items(u) ==> x in Items(c)
  {
    if Free(u, ',') {
      MergedTwice(c, u);
    } else if c == "*" {
      StarItems();
    } else if "*" in Items(c) {
      if c == "" { NoItems(); }
    } else {
      ItemsClean(c);
      DedupSame(Items(c));
      MergedOfComma(c, u);
      CommaRemerge(Dedup(Items(c)), u);
    }
  }

  lemma EntriesWithin(a: string, b: string)
    ensures Entries(a) <= Entries(b) <==> forall x :: x in Items(a) ==> x in Items(b)
  {
    assert forall x :: x in Items(a) ==> x in Entries(a);
    assert forall x :: x in Items(b) <==> x in Entries(b);
  }

  /** Merging the same user again changes nothing if and only if the user id has no comma, the list is
      universal already, or all the entries between the user's commas are on the list already. */
  lemma MergeIdempotentIff(current: string, user: string)
    ensures Merged(Merged(current, user), user) == Merged(current, user)
       <==> Free(TrimSpace(user), ',') || "*" in Items(TrimSpace(current))
            || Entries(TrimSpace(user)) <= Entries(TrimSpace(current))
  {
    var c, u := TrimSpace(current), TrimSpace(user);
    var a, b := TrimSplits(user);
    var x, y := TrimSplits(current);
    MergedTwiceIff(c, u);
    EntriesWithin(u, c);
    TrimTrimmed(MergedTrimmed(c, u));
  }

  lemma JoinTwo(a: string, b: string)
    ensures Join([a, b], ',') == a + [','] + b
  {
    assert [a, b][1..] == [b];
  }

  lemma JoinThree(a: string, b: string, c: string)
    ensures Join([a, b, c], ',') == a + [','] + b + [','] + c
  {
    JoinTwo(b, c);
    assert [a, b, c][1..] == [b, c];
    Assoc(a + [','], b + [','], c);
    Assoc(a + [','], b, [',']);
  }

  lemma DedupThree(c: string, d: string, u: string)
    requires c != d && u != c && u != d
    ensures Dedup([c, d] + [u]) == [c, d, u]
  {
    assert [c, d][..1] == [c] && [c][..0] == [];
    DedupFixed([c, d]);
    DedupStep([c, d], u);
    assert [c, d] + [u] == [c, d, u];
  }

  /** The list c,d and the user "c,d", everything trimmed. */
  lemma CommaUser(c: string, d: string, user: string)
    requires CleanItems([c, d]) && c != d && c != "*" && d != "*" && user == c + [','] + d
    ensures Trimmed(user) && user != "" && MergedTrimmed(user, user) == c + [','] + d + [','] + user
  {
    assert c in [c, d] && d in [c, d];
    JoinTwo(c, d);
    JoinTrimmed([c, d]);
    ItemsOfJoin([c, d]);
    StarItems();
    assert user[|c|] == ',';
    DedupThree(c, d, user);
    JoinThree(c, d, user);
  }

  /** One user id with a comma for which the second merge changes the list: "c,d", into the empty
      list. */
  lemma CommaUserNotIdempotent(c: string, d: string)
    requires CleanItems([c, d]) && c != d && c != "*" && d != "*"
    ensures var user := c + [','] + d;
            Merged("", user) == user && Merged(user, user) == user + [','] + user
  {
    var user := c + [','] + d;
    CommaUser(c, d, user);
    TrimTrimmed(user);
    TrimTrimmed("");
  }
}
