// Merging discovered tool names into the hand-written tool lists.
module ToolMerge {
  import opened Text
  import OrderedDict

  /** A list entry: the text it shows and the key it is de-duplicated by. For a plain string both are the
      string; for a dictionary the key is its first key and the text its printed form, which shows that key. */
  datatype Entry = Entry(key: string, shown: string)

  function PlainEntry(s: string): Entry {
    Entry(s, s)
  }

  /** The groups in the order of the dictionary. */
  type Tools = OrderedDict.Dict<string, seq<Entry>>

  datatype Inventory = Inventory(native: seq<string>, bridged: seq<seq<string>>)

  function Concat(lists: seq<seq<string>>): seq<string> {
    if lists == [] then [] else Concat(lists[..|lists| - 1]) + lists[|lists| - 1]
  }

  function AllNames(inv: Inventory): seq<string> {
    inv.native + Concat(inv.bridged)
  }

  /** The names, list by list. */
  method ListNames(inv: Inventory) returns (names: seq<string>)
    ensures names == AllNames(inv)
  {
    names := inv.native;
    for i := 0 to |inv.bridged|
      invariant names == inv.native + Concat(inv.bridged[..i])
    {
      assert inv.bridged[..i + 1][..i] == inv.bridged[..i];
      names := names + inv.bridged[i];
    }
    assert inv.bridged[..|inv.bridged|] == inv.bridged;
  }

  lemma {:induction false} ConcatMembers(lists: seq<seq<string>>, name: string)
    ensures name in Concat(lists) <==> exists i :: 0 <= i < |lists| && name in lists[i]
    decreases |lists|
  {
    if lists != [] {
      var n := |lists| - 1;
      ConcatMembers(lists[..n], name);
      if i :| 0 <= i < |lists| && name in lists[i] {
        assert i < n ==> lists[..n][i] == lists[i];
      }
      if i :| 0 <= i < n && name in lists[..n][i] {
        assert lists[..n][i] == lists[i];
      }
    }
  }

  /** The names of an inventory are its native ones and those of every bridged list, nothing else; the native ones
      come first, and each further list goes behind the others. */
  lemma InventoryNames(inv: Inventory, more: seq<string>, name: string)
    ensures name in AllNames(inv) <==> name in inv.native || exists i :: 0 <= i < |inv.bridged| && name in inv.bridged[i]
    ensures AllNames(Inventory(inv.native, [])) == inv.native
    ensures AllNames(Inventory(inv.native, inv.bridged + [more])) == AllNames(inv) + more
  {
    ConcatMembers(inv.bridged, name);
    var lists := inv.bridged + [more];
    assert lists[..|lists| - 1] == inv.bridged;
    assert inv.native + (Concat(inv.bridged) + more) == inv.native + Concat(inv.bridged) + more;
  }

  const GROUPS: seq<(string, string)> := [
    ("xnch_memory_", "memory"), ("xnch_fs_", "filesystem"), ("xnch_health", "system"), ("xnch_status", "system"),
    ("xnch_exec_", "execution"), ("xnch_web_", "web_search"), ("crg_", "code_graph"), ("am_", "agent_memory"),
    ("doc_", "library_docs"), ("c7_", "library_docs")]

  function FirstGroup(name: string, groups: seq<(string, string)>): string {
    if groups == [] then "other"
    else if StartsWith(name, groups[0].0) then groups[0].1 else FirstGroup(name, groups[1..])
  }

  function GroupFor(name: string): string {
    FirstGroup(name, GROUPS)
  }

  lemma {:induction false} FirstGroupIsFirst(name: string, groups: seq<(string, string)>) returns (k: nat)
    ensures k <= |groups| && forall i :: 0 <= i < k ==> !StartsWith(name, groups[i].0)
    ensures if k < |groups| then StartsWith(name, groups[k].0) && FirstGroup(name, groups) == groups[k].1
            else FirstGroup(name, groups) == "other"
  {
    if groups == [] || StartsWith(name, groups[0].0) {
      k := 0;
    } else {
      k := FirstGroupIsFirst(name, groups[1..]);
      k := k + 1;
    }
  }

  lemma PrefixLetters(name: string, prefix: string)
    requires StartsWith(name, prefix)
    ensures |prefix| <= |name| && forall i :: 0 <= i < |prefix| ==> name[i] == prefix[i]
  {
    assert forall i :: 0 <= i < |prefix| ==> name[i] == name[..|prefix|][i];
  }

  /** Letters by which the prefixes of the table differ. */
  lemma TableLetters(k: nat)
    requires k < |GROUPS|
    ensures var p := GROUPS[k].0;
            && |p| >= 3
            && (k < 6 ==> p[0] == 'x' && |p| > 5 && p[5] == ['m', 'f', 'h', 's', 'e', 'w'][k])
            && (k >= 6 ==> p[0] == ['c', 'a', 'd', 'c'][k - 6] && p[1] == ['r', 'm', 'o', '7'][k - 6])
  {
    assert k == 0 || k == 1 || k == 2 || k == 3 || k == 4 || k == 5 || k == 6 || k == 7 || k == 8 || k == 9;
  }

  /** No name has two prefixes of the table, so its order does not matter: a name belongs to the group
      of whichever prefix it has. */
  lemma GroupIsByPrefix(name: string, i: nat)
    requires i < |GROUPS| && StartsWith(name, GROUPS[i].0)
    ensures GroupFor(name) == GROUPS[i].1
    ensures forall j :: 0 <= j < |GROUPS| && j != i ==> !StartsWith(name, GROUPS[j].0)
  {
    PrefixLetters(name, GROUPS[i].0);
    TableLetters(i);
    forall j | 0 <= j < |GROUPS| && StartsWith(name, GROUPS[j].0) ensures j == i {
      PrefixLetters(name, GROUPS[j].0);
      TableLetters(j);
    }
    var k := FirstGroupIsFirst(name, GROUPS);
  }

  predicate HasGroup(t: Tools, g: string) {
    OrderedDict.Find(t, g).Some?
  }

  function Get(t: Tools, g: string): seq<Entry> {
    var found := OrderedDict.Find(t, g);
    if found.Some? then found.value else []
  }

  predicate Mentions(items: seq<Entry>, name: string) {
    exists i :: 0 <= i < |items| && Contains(items[i].shown, name)
  }

  /** Discovery of one name. */
  function Add(t: Tools, name: string): Tools {
    var g := GroupFor(name);
    OrderedDict.Put(t, g, Get(t, g) + if Mentions(Get(t, g), name) then [] else [PlainEntry(name)])
  }

  function AddAll(t: Tools, names: seq<string>): Tools {
    if names == [] then t else Add(AddAll(t, names[..|names| - 1]), names[|names| - 1])
  }

  function Keys(items: seq<Entry>): set<string> {
    if items == [] then {} else Keys(items[..|items| - 1]) + {items[|items| - 1].key}
  }

  /** First occurrence of every key. */
  function Dedup(items: seq<Entry>): seq<Entry> {
    if items == [] then []
    else
      var n := |items| - 1;
      Dedup(items[..n]) + if items[n].key in Keys(items[..n]) then [] else [items[n]]
  }

  function DedupAll(t: Tools): Tools {
    seq(|t|, i requires 0 <= i < |t| => (t[i].0, Dedup(t[i].1)))
  }

  function Merge(base: Tools, names: seq<string>): Tools {
    DedupAll(AddAll(base, names))
  }

  method DedupList(items: seq<Entry>) returns (deduped: seq<Entry>)
    ensures deduped == Dedup(items)
  {
    deduped := [];
    var seen: set<string> := {};
    for i := 0 to |items|
      invariant seen == Keys(items[..i]) && deduped == Dedup(items[..i])
    {
      assert items[..i + 1][..i] == items[..i];
      if items[i].key !in seen {
        seen := seen + {items[i].key};
        deduped := deduped + [items[i]];
      }
    }
    assert items[..|items|] == items;
  }

  /** The first phase: discovered names join their groups. */
  method AddNames(base: Tools, names: seq<string>) returns (merged: Tools)
    ensures merged == AddAll(base, names)
  {
    merged := base;
    for i := 0 to |names|
      invariant merged == AddAll(base, names[..i])
    {
      assert names[..i + 1][..i] == names[..i];
      var g := GroupFor(names[i]);
      var items := Get(merged, g);
      if !Mentions(items, names[i]) {
        items := items + [PlainEntry(names[i])];
      } else {
        assert items == items + [];
      }
      merged := OrderedDict.Put(merged, g, items);
    }
    assert names[..|names|] == names;
  }

  /** The second phase: every group is de-duplicated. */
  method DedupGroups(merged: Tools) returns (out: Tools)
    ensures out == DedupAll(merged)
  {
    out := [];
    for i := 0 to |merged|
      invariant |out| == i && forall k :: 0 <= k < i ==> out[k] == (merged[k].0, Dedup(merged[k].1))
    {
      var items := DedupList(merged[i].1);
      out := out + [(merged[i].0, items)];
    }
  }

  method MergeTools(base: Tools, inv: Inventory) returns (out: Tools)
    ensures out == Merge(base, AllNames(inv))
  {
    var names := ListNames(inv);
    var merged := AddNames(base, names);
    out := DedupGroups(merged);
  }

  /** The table of prefixes spelled out. */
  lemma GroupTable(name: string)
    ensures StartsWith(name, "xnch_memory_") ==> GroupFor(name) == "memory"
    ensures StartsWith(name, "xnch_fs_") ==> GroupFor(name) == "filesystem"
    ensures StartsWith(name, "xnch_health") || StartsWith(name, "xnch_status") ==> GroupFor(name) == "system"
    ensures StartsWith(name, "xnch_exec_") ==> GroupFor(name) == "execution"
    ensures StartsWith(name, "xnch_web_") ==> GroupFor(name) == "web_search"
    ensures StartsWith(name, "crg_") ==> GroupFor(name) == "code_graph"
    ensures StartsWith(name, "am_") ==> GroupFor(name) == "agent_memory"
    ensures StartsWith(name, "doc_") || StartsWith(name, "c7_") ==> GroupFor(name) == "library_docs"
    ensures GroupFor(name) != "other" ==> exists i :: 0 <= i < |GROUPS| && StartsWith(name, GROUPS[i].0)
  {
    forall i: nat | i < |GROUPS| && StartsWith(name, GROUPS[i].0) ensures GroupFor(name) == GROUPS[i].1 {
      GroupIsByPrefix(name, i);
    }
    assert GROUPS[0].0 == "xnch_memory_" && GROUPS[1].0 == "xnch_fs_" && GROUPS[2].0 == "xnch_health";
    assert GROUPS[3].0 == "xnch_status" && GROUPS[4].0 == "xnch_exec_" && GROUPS[5].0 == "xnch_web_";
    assert GROUPS[6].0 == "crg_" && GROUPS[7].0 == "am_" && GROUPS[8].0 == "doc_" && GROUPS[9].0 == "c7_";
    var k := FirstGroupIsFirst(name, GROUPS);
  }

  // ---------------------------------------------------------------- groups

  lemma GroupsPut(t: Tools, g: string, items: seq<Entry>, q: string)
    ensures Get(OrderedDict.Put(t, g, items), q) == if q == g then items else Get(t, q)
    ensures HasGroup(OrderedDict.Put(t, g, items), q) <==> q == g || HasGroup(t, q)
  {
    OrderedDict.FindPut(t, g, items, q);
  }

  lemma {:induction false} GroupsDedup(t: Tools, g: string)
    ensures Get(DedupAll(t), g) == Dedup(Get(t, g))
    ensures HasGroup(DedupAll(t), g) <==> HasGroup(t, g)
  {
    if t != [] {
      GroupsDedup(t[1..], g);
      assert DedupAll(t)[1..] == DedupAll(t[1..]);
    }
  }

  lemma {:induction false} GetMember(t: Tools, g: string)
    ensures HasGroup(t, g) ==> (g, Get(t, g)) in t
    ensures !HasGroup(t, g) ==> Get(t, g) == []
  {
    if t != [] && t[0].0 != g {
      GetMember(t[1..], g);
    }
  }

  /** The group names in dictionary order. */
  function GroupNames(t: Tools): (gs: seq<string>)
    ensures |gs| == |t| && forall i :: 0 <= i < |t| ==> gs[i] == t[i].0
  {
    seq(|t|, i requires 0 <= i < |t| => t[i].0)
  }

  function GroupsFor(names: seq<string>): seq<string> {
    if names == [] then [] else GroupsFor(names[..|names| - 1]) + [GroupFor(names[|names| - 1])]
  }

  /** First occurrences, in order. */
  function FirstSeen(gs: seq<string>): seq<string> {
    if gs == [] then []
    else
      var n := |gs| - 1;
      FirstSeen(gs[..n]) + if gs[n] in gs[..n] then [] else [gs[n]]
  }

  lemma FirstSeenSnoc(gs: seq<string>, g: string)
    ensures FirstSeen(gs + [g]) == FirstSeen(gs) + if g in gs then [] else [g]
  {
    assert (gs + [g])[..|gs|] == gs;
  }

  lemma NamesCons(p: (string, seq<Entry>), rest: Tools)
    ensures GroupNames([p] + rest) == [p.0] + GroupNames(rest)
  {
  }

  lemma {:induction false} PutNames(t: Tools, g: string, items: seq<Entry>)
    ensures GroupNames(OrderedDict.Put(t, g, items)) == GroupNames(t) + if g in GroupNames(t) then [] else [g]
  {
    if t != [] {
      assert t == [t[0]] + t[1..];
      NamesCons(t[0], t[1..]);
      if t[0].0 == g {
        NamesCons((g, items), t[1..]);
        assert g == GroupNames(t)[0];
      } else {
        PutNames(t[1..], g, items);
        NamesCons(t[0], OrderedDict.Put(t[1..], g, items));
      }
    }
  }

  lemma {:induction false} FirstSeenMembers(gs: seq<string>)
    ensures forall g :: g in FirstSeen(gs) <==> g in gs
    decreases |gs|
  {
    if gs != [] {
      var n := |gs| - 1;
      FirstSeenMembers(gs[..n]);
      assert gs == gs[..n] + [gs[n]];
    }
  }

  lemma {:induction false} FirstSeenDistinct(t: Tools)
    requires OrderedDict.DistinctKeys(t)
    ensures FirstSeen(GroupNames(t)) == GroupNames(t)
    decreases |t|
  {
    if t != [] {
      var n := |t| - 1;
      FirstSeenDistinct(t[..n]);
      assert GroupNames(t) == GroupNames(t[..n]) + [t[n].0];
      FirstSeenSnoc(GroupNames(t[..n]), t[n].0);
    }
  }

  lemma {:induction false} AddAllNames(base: Tools, names: seq<string>)
    requires OrderedDict.DistinctKeys(base)
    ensures GroupNames(AddAll(base, names)) == FirstSeen(GroupNames(base) + GroupsFor(names))
    decreases |names|
  {
    if names == [] {
      FirstSeenDistinct(base);
      assert GroupNames(base) + [] == GroupNames(base);
    } else {
      var n := |names| - 1;
      var before, gs, g := AddAll(base, names[..n]), GroupNames(base) + GroupsFor(names[..n]), GroupFor(names[n]);
      AddAllNames(base, names[..n]);
      PutNames(before, g, Get(AddAll(base, names), g));
      GroupsPut(before, g, Get(before, g) + if Mentions(Get(before, g), names[n]) then [] else [PlainEntry(names[n])], g);
      FirstSeenMembers(gs);
      FirstSeenSnoc(gs, g);
      assert GroupNames(base) + GroupsFor(names) == gs + [g];
    }
  }

  /** The merged dictionary lists the base groups first and then the others in the order of their first name. */
  lemma GroupsInOrder(base: Tools, names: seq<string>)
    requires OrderedDict.DistinctKeys(base)
    ensures GroupNames(Merge(base, names)) == FirstSeen(GroupNames(base) + GroupsFor(names))
  {
    AddAllNames(base, names);
    assert GroupNames(DedupAll(AddAll(base, names))) == GroupNames(AddAll(base, names));
  }

  // ---------------------------------------------------------------- what the additions look like

  /** From position `n` on there are plain entries, none of them mentioned by an earlier entry. */
  predicate FreshFrom(items: seq<Entry>, n: nat) {
    forall i :: n <= i < |items| ==>
      items[i] == PlainEntry(items[i].key) && !Mentions(items[..i], items[i].key)
  }

  predicate ShowsKeys(items: seq<Entry>) {
    forall e :: e in items ==> Contains(e.shown, e.key)
  }

  predicate DistinctKeys(items: seq<Entry>) {
    items == [] || (DistinctKeys(items[..|items| - 1]) && items[|items| - 1].key !in Keys(items[..|items| - 1]))
  }

  /** Entries with the same key are the same entry. */
  predicate Faithful(items: seq<Entry>) {
    forall e, f :: e in items && f in items && e.key == f.key ==> e == f
  }

  lemma FreshSnoc(items: seq<Entry>, n: nat, name: string)
    requires FreshFrom(items, n) && !Mentions(items, name)
    ensures FreshFrom(items + [PlainEntry(name)], n)
  {
    var all := items + [PlainEntry(name)];
    assert all[..|items|] == items && forall i :: 0 <= i < |items| ==> all[..i] == items[..i] && all[i] == items[i];
  }

  /** Entries from position `n` on are named by discovered names of the group. */
  predicate NamedFrom(items: seq<Entry>, n: nat, names: seq<string>, g: string) {
    forall i :: n <= i < |items| ==> items[i].key in names && GroupFor(items[i].key) == g
  }

  lemma AddGet(t: Tools, name: string, g: string)
    ensures Get(Add(t, name), g) ==
            if g == GroupFor(name) && !Mentions(Get(t, g), name) then Get(t, g) + [PlainEntry(name)] else Get(t, g)
    ensures HasGroup(Add(t, name), g) <==> g == GroupFor(name) || HasGroup(t, g)
  {
    var h := GroupFor(name);
    GroupsPut(t, h, Get(t, h) + if Mentions(Get(t, h), name) then [] else [PlainEntry(name)], g);
    assert Get(t, h) + [] == Get(t, h);
  }

  /** Base entries stay in front; behind them come new names of the group that nothing before mentions. */
  lemma {:induction false} AddAllShape(base: Tools, names: seq<string>, g: string)
    ensures Get(base, g) <= Get(AddAll(base, names), g)
    ensures FreshFrom(Get(AddAll(base, names), g), |Get(base, g)|)
    ensures NamedFrom(Get(AddAll(base, names), g), |Get(base, g)|, names, g)
    decreases |names|
  {
    if names != [] {
      var m := |names| - 1;
      AddAllShape(base, names[..m], g);
      var before, after := Get(AddAll(base, names[..m]), g), Get(AddAll(base, names), g);
      assert names[m] in names && forall x :: x in names[..m] ==> x in names;
      AddGet(AddAll(base, names[..m]), names[m], g);
      if g == GroupFor(names[m]) && !Mentions(before, names[m]) {
        FreshSnoc(before, |Get(base, g)|, names[m]);
        assert after == before + [PlainEntry(names[m])];
      } else {
        assert after == before;
      }
    }
  }

  /** Every discovered name is mentioned in its own group. */
  lemma {:induction false} AddAllCovers(base: Tools, names: seq<string>, name: string)
    requires name in names
    ensures Mentions(Get(AddAll(base, names), GroupFor(name)), name)
    decreases |names|
  {
    var m, g := |names| - 1, GroupFor(name);
    var before := Get(AddAll(base, names[..m]), g);
    AddGet(AddAll(base, names[..m]), names[m], g);
    if name == names[m] {
      NewIsMentioned(before, name);
    } else {
      AddAllCovers(base, names[..m], name);
      MentionsGrows(before, Get(AddAll(base, names), g), name);
    }
  }

  lemma NewIsMentioned(items: seq<Entry>, name: string)
    ensures Mentions(items + [PlainEntry(name)], name)
  {
    ContainsSelf(name);
    assert (items + [PlainEntry(name)])[|items|] == PlainEntry(name);
  }

  lemma MentionsGrows(items: seq<Entry>, more: seq<Entry>, name: string)
    requires items <= more
    ensures Mentions(items, name) ==> Mentions(more, name)
  {
    if Mentions(items, name) {
      var k :| 0 <= k < |items| && Contains(items[k].shown, name);
      assert more[k] == items[k];
    }
  }

  lemma {:induction false} AddAllKeys(base: Tools, names: seq<string>, g: string)
    ensures HasGroup(AddAll(base, names), g) <==> HasGroup(base, g) || exists x :: x in names && GroupFor(x) == g
    decreases |names|
  {
    if names != [] {
      var m := |names| - 1;
      AddAllKeys(base, names[..m], g);
      AddGet(AddAll(base, names[..m]), names[m], g);
      assert names == names[..m] + [names[m]];
    }
  }

  // ---------------------------------------------------------------- what de-duplication does

  lemma {:induction false} KeysMember(items: seq<Entry>, k: string)
    ensures k in Keys(items) <==> exists i :: 0 <= i < |items| && items[i].key == k
    decreases |items|
  {
    if items != [] {
      var n := |items| - 1;
      KeysMember(items[..n], k);
      if i :| 0 <= i < |items| && items[i].key == k {
        assert i < n ==> items[..n][i].key == k;
      }
      if k in Keys(items[..n]) {
        var i :| 0 <= i < n && items[..n][i].key == k;
        assert items[i].key == k;
      } else if k in Keys(items) {
        assert items[n].key == k;
      }
    }
  }

  lemma Snoc(front: seq<Entry>, last: Entry)
    ensures Keys(front + [last]) == Keys(front) + {last.key}
    ensures DistinctKeys(front + [last]) <==> DistinctKeys(front) && last.key !in Keys(front)
  {
    assert (front + [last])[..|front|] == front;
  }

  lemma {:induction false} DedupProperties(items: seq<Entry>)
    ensures DistinctKeys(Dedup(items)) && Keys(Dedup(items)) == Keys(items)
    ensures forall e :: e in Dedup(items) ==> e in items
    decreases |items|
  {
    if items != [] {
      var front, last := items[..|items| - 1], items[|items| - 1];
      DedupProperties(front);
      Snoc(Dedup(front), last);
      if last.key in Keys(front) {
        assert Dedup(items) == Dedup(front);
      }
    }
  }

  /** De-duplication keeps the length, and then the list, exactly when no key repeats. */
  lemma {:induction false} DedupFixedPoint(items: seq<Entry>)
    ensures |Dedup(items)| <= |items|
    ensures |Dedup(items)| == |items| <==> DistinctKeys(items)
    ensures DistinctKeys(items) ==> Dedup(items) == items
    decreases |items|
  {
    if items != [] {
      DedupFixedPoint(items[..|items| - 1]);
    }
  }

  /** Reference meaning: the entries from position `i` on whose key no earlier entry has. */
  ghost function FirstOfKeys(items: seq<Entry>, i: nat): seq<Entry>
    requires i <= |items|
    decreases |items| - i
  {
    if i == |items| then []
    else (if exists j :: 0 <= j < i && items[j].key == items[i].key then [] else [items[i]]) + FirstOfKeys(items, i + 1)
  }

  lemma FirstOfKeysStep(items: seq<Entry>, i: nat)
    requires i < |items|
    ensures FirstOfKeys(items, i) ==
            (if items[i].key in Keys(items[..i]) then [] else [items[i]]) + FirstOfKeys(items, i + 1)
  {
    KeysMember(items[..i], items[i].key);
    assert (exists j :: 0 <= j < i && items[j].key == items[i].key) <==>
           (exists j :: 0 <= j < |items[..i]| && items[..i][j].key == items[i].key);
  }

  /** De-duplication keeps, in order, the first entry of every key. */
  lemma {:induction false} DedupMeaning(items: seq<Entry>, i: nat)
    requires i <= |items|
    ensures Dedup(items[..i]) + FirstOfKeys(items, i) == Dedup(items)
    decreases |items| - i
  {
    if i == |items| {
      assert items[..i] == items;
    } else {
      assert items[..i + 1] == items[..i] + [items[i]];
      var kept := if items[i].key in Keys(items[..i]) then [] else [items[i]];
      DedupSnoc(items[..i], items[i]);
      FirstOfKeysStep(items, i);
      DedupMeaning(items, i + 1);
      Regroup(Dedup(items[..i]), kept, FirstOfKeys(items, i + 1));
    }
  }

  lemma Regroup(a: seq<Entry>, b: seq<Entry>, c: seq<Entry>)
    ensures (a + b) + c == a + (b + c)
  {
  }

  lemma DedupSnoc(front: seq<Entry>, last: Entry)
    ensures Dedup(front + [last]) == Dedup(front) + if last.key in Keys(front) then [] else [last]
  {
    assert (front + [last])[..|front|] == front;
  }

  /** A faithful list loses only copies. */
  lemma FaithfulSurvives(items: seq<Entry>, e: Entry)
    requires Faithful(items) && e in items
    ensures e in Dedup(items)
  {
    DedupProperties(items);
    KeysMember(items, e.key);
    KeysMember(Dedup(items), e.key);
    var i :| 0 <= i < |Dedup(items)| && Dedup(items)[i].key == e.key;
    assert Dedup(items)[i] in items;
  }

  /** From position `n` on no key repeats an earlier one. */
  predicate KeysNew(items: seq<Entry>, n: nat) {
    forall i, j :: n <= i < |items| && 0 <= j < i ==> items[j].key != items[i].key
  }

  lemma SameKeyMentions(items: seq<Entry>, i: nat, j: nat)
    requires j < i < |items| && Contains(items[j].shown, items[j].key)
    ensures items[j].key == items[i].key ==> Mentions(items[..i], items[i].key)
  {
    assert items[..i][j] == items[j];
  }

  /** New names are never duplicates. */
  lemma FreshKeysAreNew(items: seq<Entry>, n: nat)
    requires n <= |items| && ShowsKeys(items[..n]) && FreshFrom(items, n)
    ensures KeysNew(items, n)
  {
    forall i, j | n <= i < |items| && 0 <= j < i ensures items[j].key != items[i].key {
      if j < n {
        assert items[..n][j] == items[j];
      } else {
        ContainsSelf(items[j].key);
      }
      SameKeyMentions(items, i, j);
    }
  }

  /** De-duplication passes them through. */
  lemma {:induction false} DedupFresh(items: seq<Entry>, n: nat)
    requires n <= |items| && KeysNew(items, n)
    ensures Dedup(items) == Dedup(items[..n]) + items[n..]
    decreases |items|
  {
    if n < |items| {
      DedupFresh(items[..|items| - 1], n);
      DedupLast(items, n);
      SplitLast(items, n);
    } else {
      assert items[..n] == items;
    }
  }

  lemma DedupLast(items: seq<Entry>, n: nat)
    requires n < |items| && KeysNew(items, n)
    ensures Dedup(items) == Dedup(items[..|items| - 1]) + [items[|items| - 1]]
  {
    KeysMember(items[..|items| - 1], items[|items| - 1].key);
  }

  lemma SplitLast(items: seq<Entry>, n: nat)
    requires n < |items|
    ensures items[..|items| - 1][..n] == items[..n]
    ensures items[n..] == items[..|items| - 1][n..] + [items[|items| - 1]]
  {
  }

  // ---------------------------------------------------------------- the merge

  predicate WellFormed(base: Tools) {
    forall p :: p in base ==> ShowsKeys(p.1)
  }

  /** What discovery put behind the base entries of a group. */
  function Appended(base: Tools, names: seq<string>, g: string): seq<Entry> {
    var added, n := Get(AddAll(base, names), g), |Get(base, g)|;
    if n <= |added| then added[n..] else []
  }

  /** De-duplication touches the base entries only. */
  lemma MergeShape(base: Tools, names: seq<string>, g: string)
    requires WellFormed(base)
    ensures Get(AddAll(base, names), g) == Get(base, g) + Appended(base, names, g)
    ensures Get(Merge(base, names), g) == Dedup(Get(base, g)) + Appended(base, names, g)
  {
    var added, b := Get(AddAll(base, names), g), Get(base, g);
    GetMember(base, g);
    AddAllShape(base, names, g);
    assert added[..|b|] == b && added == b + added[|b|..];
    FreshKeysAreNew(added, |b|);
    DedupFresh(added, |b|);
    GroupsDedup(AddAll(base, names), g);
  }

  lemma AppendedEntries(base: Tools, names: seq<string>, g: string)
    ensures forall e :: e in Appended(base, names, g) ==>
              e == PlainEntry(e.key) && e.key in names && GroupFor(e.key) == g && !Mentions(Get(base, g), e.key)
  {
    var added, n := Get(AddAll(base, names), g), |Get(base, g)|;
    AddAllShape(base, names, g);
    forall i | n <= i < |added| ensures !Mentions(Get(base, g), added[i].key) {
      MentionsGrows(Get(base, g), added[..i], added[i].key);
    }
  }

  /** Every group starts with its de-duplicated base entries, in order, followed by newly discovered names
      of that very group; there are no other groups. */
  lemma MergeKeepsBase(base: Tools, names: seq<string>, g: string)
    requires WellFormed(base)
    ensures HasGroup(Merge(base, names), g) <==> HasGroup(base, g) || exists x :: x in names && GroupFor(x) == g
    ensures var out, front := Get(Merge(base, names), g), Dedup(Get(base, g));
            && front <= out
            && forall e :: e in out[|front|..] ==>
                 e == PlainEntry(e.key) && e.key in names && GroupFor(e.key) == g && !Mentions(Get(base, g), e.key)
  {
    AddAllKeys(base, names, g);
    GroupsDedup(AddAll(base, names), g);
    MergeShape(base, names, g);
    AppendedEntries(base, names, g);
    var front, tail := Dedup(Get(base, g)), Appended(base, names, g);
    assert (front + tail)[|front|..] == tail;
  }

  /** For a base without repeated keys every base entry survives in order and nothing at all is dropped;
      a repeated key always costs an entry. */
  lemma NothingIsDropped(base: Tools, names: seq<string>, g: string)
    requires WellFormed(base)
    ensures Get(Merge(base, names), g) == Get(AddAll(base, names), g) <==> DistinctKeys(Get(base, g))
    ensures DistinctKeys(Get(base, g)) ==> Get(base, g) <= Get(Merge(base, names), g)
  {
    MergeShape(base, names, g);
    DedupFixedPoint(Get(base, g));
  }

  // ---------------------------------------------------------------- which names are mentioned

  /** The base entries that stay, or a new name that contains it, still show a name the base mentions. */
  predicate Covered(b: seq<Entry>, names: seq<string>, name: string) {
    Mentions(b, name) ==>
      Mentions(Dedup(b), name)
      || exists x :: x in names && GroupFor(x) == GroupFor(name) && !Mentions(b, x) && Contains(x, name)
  }

  lemma MentionsSplit(front: seq<Entry>, tail: seq<Entry>, name: string)
    ensures Mentions(front + tail, name) <==> Mentions(front, name) || Mentions(tail, name)
  {
    var all := front + tail;
    MentionsGrows(front, all, name);
    if Mentions(tail, name) {
      var i :| 0 <= i < |tail| && Contains(tail[i].shown, name);
      assert all[|front| + i] == tail[i];
    }
    if Mentions(all, name) {
      var i :| 0 <= i < |all| && Contains(all[i].shown, name);
      assert if i < |front| then front[i] == all[i] else tail[i - |front|] == all[i];
    }
  }

  lemma MentionsShorter(items: seq<Entry>, x: string, name: string)
    requires Mentions(items, x) && Contains(x, name)
    ensures Mentions(items, name)
  {
    var i :| 0 <= i < |items| && Contains(items[i].shown, x);
    ContainsTransitive(items[i].shown, x, name);
  }

  /** What the merged group mentions: a staying base entry or an appended one. */
  lemma MentionedParts(base: Tools, names: seq<string>, g: string, name: string)
    requires WellFormed(base)
    ensures Mentions(Get(Merge(base, names), g), name) <==>
            Mentions(Dedup(Get(base, g)), name) || Mentions(Appended(base, names, g), name)
  {
    MergeShape(base, names, g);
    MentionsSplit(Dedup(Get(base, g)), Appended(base, names, g), name);
  }

  /** A discovered name the base does not mention is shown behind the base entries. */
  lemma NewNameIsAppended(base: Tools, names: seq<string>, x: string)
    requires WellFormed(base) && x in names && !Mentions(Get(base, GroupFor(x)), x)
    ensures Mentions(Appended(base, names, GroupFor(x)), x)
  {
    var g := GroupFor(x);
    AddAllCovers(base, names, x);
    MergeShape(base, names, g);
    MentionsSplit(Get(base, g), Appended(base, names, g), x);
  }

  /** For every well-formed base: a discovered name is mentioned by its merged group exactly when it is covered. */
  lemma MentionedExactly(base: Tools, names: seq<string>, name: string)
    requires WellFormed(base) && name in names
    ensures Mentions(Get(Merge(base, names), GroupFor(name)), name) <==> Covered(Get(base, GroupFor(name)), names, name)
  {
    MentionedParts(base, names, GroupFor(name), name);
    if Covered(Get(base, GroupFor(name)), names, name) {
      CoveredIsShown(base, names, name);
    } else {
      ShownIsCovered(base, names, name);
    }
  }

  lemma CoveredIsShown(base: Tools, names: seq<string>, name: string)
    requires WellFormed(base) && name in names && Covered(Get(base, GroupFor(name)), names, name)
    ensures Mentions(Dedup(Get(base, GroupFor(name))), name) || Mentions(Appended(base, names, GroupFor(name)), name)
  {
    var g := GroupFor(name);
    if !Mentions(Get(base, g), name) {
      NewNameIsAppended(base, names, name);
    } else if !Mentions(Dedup(Get(base, g)), name) {
      var x :| x in names && GroupFor(x) == g && !Mentions(Get(base, g), x) && Contains(x, name);
      NewNameIsAppended(base, names, x);
      MentionsShorter(Appended(base, names, g), x, name);
    }
  }

  lemma ShownIsCovered(base: Tools, names: seq<string>, name: string)
    ensures Mentions(Dedup(Get(base, GroupFor(name))), name) || Mentions(Appended(base, names, GroupFor(name)), name)
            ==> Covered(Get(base, GroupFor(name)), names, name)
  {
    var tail := Appended(base, names, GroupFor(name));
    AppendedEntries(base, names, GroupFor(name));
    if Mentions(tail, name) {
      var i :| 0 <= i < |tail| && Contains(tail[i].shown, name);
      assert tail[i] in tail;
    }
  }

  lemma {:induction false} PutSame(t: Tools, g: string)
    requires HasGroup(t, g)
    ensures OrderedDict.Put(t, g, Get(t, g)) == t
  {
    if t[0].0 != g {
      PutSame(t[1..], g);
    }
  }

  lemma {:induction false} CoveredAddsNothing(t: Tools, names: seq<string>)
    requires forall x :: x in names ==> Mentions(Get(t, GroupFor(x)), x)
    ensures AddAll(t, names) == t
    decreases |names|
  {
    if names != [] {
      var m := |names| - 1;
      CoveredAddsNothing(t, names[..m]);
      assert names[m] in names;
      var g := GroupFor(names[m]);
      GetMember(t, g);
      PutSame(t, g);
      assert Get(t, g) + [] == Get(t, g);
    }
  }

  lemma DedupAgain(items: seq<Entry>)
    ensures Dedup(Dedup(items)) == Dedup(items)
  {
    DedupProperties(items);
    DedupFixedPoint(Dedup(items));
  }

  lemma MergedIsSettled(base: Tools, names: seq<string>)
    ensures DedupAll(Merge(base, names)) == Merge(base, names)
  {
    var added := AddAll(base, names);
    forall i | 0 <= i < |added| ensures Dedup(Dedup(added[i].1)) == Dedup(added[i].1) {
      DedupAgain(added[i].1);
    }
  }

  lemma {:induction false} PutWellFormed(t: Tools, g: string, items: seq<Entry>)
    requires WellFormed(t) && ShowsKeys(items)
    ensures WellFormed(OrderedDict.Put(t, g, items))
  {
    OrderedDict.PutPairs(t, g, items);
  }

  lemma {:induction false} AddedIsWellFormed(base: Tools, names: seq<string>)
    requires WellFormed(base)
    ensures WellFormed(AddAll(base, names))
    decreases |names|
  {
    if names != [] {
      var before, name := AddAll(base, names[..|names| - 1]), names[|names| - 1];
      var g := GroupFor(name);
      AddedIsWellFormed(base, names[..|names| - 1]);
      GetMember(before, g);
      ContainsSelf(name);
      PutWellFormed(before, g, Get(before, g) + if Mentions(Get(before, g), name) then [] else [PlainEntry(name)]);
    }
  }

  lemma MergedIsWellFormed(base: Tools, names: seq<string>)
    requires WellFormed(base)
    ensures WellFormed(Merge(base, names))
  {
    var added := AddAll(base, names);
    AddedIsWellFormed(base, names);
    forall i | 0 <= i < |added| ensures ShowsKeys(Dedup(added[i].1)) {
      assert added[i] in added;
      DedupProperties(added[i].1);
    }
  }

  /** The second merge shows every discovered name, covered or not. */
  lemma RemergeShows(base: Tools, names: seq<string>, name: string)
    requires WellFormed(base) && name in names
    ensures Mentions(Get(Merge(Merge(base, names), names), GroupFor(name)), name)
  {
    MergedIsWellFormed(base, names);
    MergedIsSettled(base, names);
    GroupsDedup(Merge(base, names), GroupFor(name));
    MentionedExactly(Merge(base, names), names, name);
  }

  /** For every well-formed base: merging the result again with the same names changes nothing
      exactly when every one of them is covered. */
  lemma MergeIsIdempotentExactly(base: Tools, names: seq<string>)
    requires WellFormed(base)
    ensures Merge(Merge(base, names), names) == Merge(base, names) <==>
            forall x :: x in names ==> Covered(Get(base, GroupFor(x)), names, x)
  {
    forall x | x in names
      ensures Mentions(Get(Merge(base, names), GroupFor(x)), x) <==> Covered(Get(base, GroupFor(x)), names, x)
    {
      MentionedExactly(base, names, x);
    }
    if forall x :: x in names ==> Covered(Get(base, GroupFor(x)), names, x) {
      CoveredAddsNothing(Merge(base, names), names);
      MergedIsSettled(base, names);
    } else {
      var x :| x in names && !Covered(Get(base, GroupFor(x)), names, x);
      RemergeShows(base, names, x);
    }
  }

  /** For the inventory itself: every native name and every name of a bridged list. */
  lemma InventoryIsShown(base: Tools, inv: Inventory, name: string)
    requires WellFormed(base)
    requires name in inv.native || exists i :: 0 <= i < |inv.bridged| && name in inv.bridged[i]
    ensures Mentions(Get(Merge(base, AllNames(inv)), GroupFor(name)), name) <==>
            Covered(Get(base, GroupFor(name)), AllNames(inv), name)
    ensures FaithfulBase(base) ==> Mentions(Get(Merge(base, AllNames(inv)), GroupFor(name)), name)
  {
    InventoryNames(inv, [], name);
    MentionedExactly(base, AllNames(inv), name);
    if FaithfulBase(base) {
      FaithfulCovers(base, AllNames(inv), name);
    }
  }

  predicate FaithfulBase(base: Tools) {
    WellFormed(base) && forall p :: p in base ==> Faithful(p.1)
  }

  /** In a base whose entries of equal key are equal every discovered name is covered. */
  lemma FaithfulCovers(base: Tools, names: seq<string>, name: string)
    requires FaithfulBase(base)
    ensures Covered(Get(base, GroupFor(name)), names, name)
  {
    var b := Get(base, GroupFor(name));
    GetMember(base, GroupFor(name));
    if Mentions(b, name) {
      var i :| 0 <= i < |b| && Contains(b[i].shown, name);
      FaithfulSurvives(b, b[i]);
      var j :| 0 <= j < |Dedup(b)| && Dedup(b)[j] == b[i];
    }
  }

  /** So there every discovered name is mentioned by some entry of its own group. */
  lemma MergeCovers(base: Tools, names: seq<string>, name: string)
    requires FaithfulBase(base) && name in names
    ensures Mentions(Get(Merge(base, names), GroupFor(name)), name)
  {
    FaithfulCovers(base, names, name);
    MentionedExactly(base, names, name);
  }

  /** And merging the result again with the same inventory changes nothing. */
  lemma MergeIsIdempotent(base: Tools, names: seq<string>)
    requires FaithfulBase(base)
    ensures Merge(Merge(base, names), names) == Merge(base, names)
  {
    forall x | x in names ensures Covered(Get(base, GroupFor(x)), names, x) {
      FaithfulCovers(base, names, x);
    }
    MergeIsIdempotentExactly(base, names);
  }

  /** Lists of plain strings are faithful whatever they repeat, so the laws hold for all of them. */
  lemma PlainListsAreFaithful(items: seq<Entry>)
    requires forall e :: e in items ==> e == PlainEntry(e.key)
    ensures Faithful(items) && ShowsKeys(items)
  {
    forall e | e in items ensures Contains(e.shown, e.key) {
      ContainsSelf(e.key);
    }
  }

  /** Two dictionaries with the same first key are not: the second can keep a name from being added
      and is then dropped itself, so the merged list does not mention the name at all. */
  lemma RepeatedKeyHidesAName(e: Entry, f: Entry, name: string)
    requires e.key == f.key && !Contains(e.shown, name) && Contains(f.shown, name)
    ensures Merge([(GroupFor(name), [e, f])], [name]) == [(GroupFor(name), [e])] && !Mentions([e], name)
  {
    var base: Tools := [(GroupFor(name), [e, f])];
    assert Contains([e, f][1].shown, name) && Mentions([e, f], name);
    CoveredAddsNothing(base, [name]);
    DedupPair(e, f);
  }

  lemma DedupPair(e: Entry, f: Entry)
    requires e.key == f.key
    ensures Dedup([e, f]) == [e]
  {
    assert [e][..0] == [] && [e, f][..1] == [e];
    assert Keys([e]) == {e.key} && Dedup([e]) == [e];
  }
}
