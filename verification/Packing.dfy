/** Run-length packing of measured traces under their shared context, without loss. */
module Packing {

  /** The three columns that are packed as group headers. */
  datatype Header = Header(block: int, phase: string, capacity: int)

  /** A row: its header columns, the arm, and everything else, which is only copied. */
  datatype Row<T> = Row(header: Header, round: int, arm: string, rest: T)

  datatype Item<T> = Item(round: int, arm: nat, rest: T)

  datatype Group<T> = Group(header: Header, items: seq<Item<T>>)

  datatype Packed<T> = Packed(arms: seq<string>, groups: seq<Group<T>>)

  // ---------- sorted sets of texts ----------

  predicate Less(a: string, b: string) {
    if b == "" then false
    else if a == "" then true
    else a[0] < b[0] || (a[0] == b[0] && Less(a[1..], b[1..]))
  }

  lemma {:induction false} LessTotal(a: string, b: string)
    ensures Less(a, b) || a == b || Less(b, a)
    ensures !(Less(a, b) && Less(b, a)) && (Less(a, b) ==> a != b)
  {
    if a != "" && b != "" && a[0] == b[0] {
      LessTotal(a[1..], b[1..]);
      assert a == [a[0]] + a[1..] && b == [b[0]] + b[1..];
    }
  }

  lemma {:induction false} LessTransitive(a: string, b: string, c: string)
    requires Less(a, b) && Less(b, c)
    ensures Less(a, c)
  {
    if a != "" && a[0] == b[0] == c[0] { LessTransitive(a[1..], b[1..], c[1..]); }
  }

  predicate Increasing(s: seq<string>) { forall i, j | 0 <= i < j < |s| :: Less(s[i], s[j]) }

  /** Insert into a sorted list without repetition. */
  function Insert(s: seq<string>, a: string): (r: seq<string>)
    requires Increasing(s)
    ensures Increasing(r) && forall x :: x in r <==> x in s || x == a
  {
    if s == [] then [a]
    else
      var n := |s| - 1;
      LessTotal(s[n], a);
      assert s == s[..n] + [s[n]];
      if s[n] == a then s
      else if Less(s[n], a) then
        assert forall i | 0 <= i < n :: Less(s[i], a) by {
          forall i | 0 <= i < n ensures Less(s[i], a) { LessTransitive(s[i], s[n], a); }
        }
        s + [a]
      else
        var front := Insert(s[..n], a);
        assert forall i | 0 <= i < |front| :: Less(front[i], s[n]) by {
          forall i | 0 <= i < |front| ensures Less(front[i], s[n]) { assert front[i] in front; }
        }
        front + [s[n]]
  }

  function ArmsOf<T>(rows: seq<Row<T>>): (r: seq<string>)
    ensures Increasing(r) && forall x :: x in r <==> exists i :: 0 <= i < |rows| && rows[i].arm == x
  {
    if rows == [] then []
    else
      var n := |rows| - 1;
      assert forall i | 0 <= i < n :: rows[..n][i] == rows[i];
      Insert(ArmsOf(rows[..n]), rows[n].arm)
  }

  lemma HasElement(s: seq<string>)
    requires s != []
    ensures exists x :: x in s
  {
    assert s[0] in s;
  }

  /** Two sorted lists without repetition and with the same elements are the same list. */
  lemma {:induction false} IncreasingUnique(a: seq<string>, b: seq<string>)
    requires Increasing(a) && Increasing(b) && forall x :: x in a <==> x in b
    ensures a == b
    decreases |a|
  {
    if a == [] {
      if b != [] { HasElement(b); }
    } else {
      var m, n := |a| - 1, |b| - 1;
      assert a[m] in a && b != [];
      assert b[n] in b;
      LastIsGreatest(a, b[n]);
      LastIsGreatest(b, a[m]);
      LessTotal(a[m], b[n]);
      forall x ensures x in a[..m] <==> x in b[..n] {
        WithoutLast(a, x);
        WithoutLast(b, x);
      }
      IncreasingUnique(a[..m], b[..n]);
      assert a == a[..m] + [a[m]] && b == b[..n] + [b[n]];
    }
  }

  lemma LastIsGreatest(s: seq<string>, x: string)
    requires Increasing(s) && x in s
    ensures x == s[|s| - 1] || Less(x, s[|s| - 1])
  {
    var i :| 0 <= i < |s| && s[i] == x;
  }

  lemma WithoutLast(s: seq<string>, x: string)
    requires Increasing(s) && s != []
    ensures x in s[..|s| - 1] <==> x in s && x != s[|s| - 1]
  {
    var n := |s| - 1;
    if x in s[..n] {
      var i :| 0 <= i < n && s[i] == x;
      LessTotal(s[i], s[n]);
    }
  }

  function IndexOf(s: seq<string>, x: string): (i: nat)
    requires x in s
    ensures i < |s| && s[i] == x && x !in s[..i]
  {
    if s[0] == x then 0 else 1 + IndexOf(s[1..], x)
  }

  // ---------- packing and unpacking ----------

  function ItemOf<T>(arms: seq<string>, row: Row<T>): Item<T>
    requires row.arm in arms
  {
    Item(row.round, IndexOf(arms, row.arm), row.rest)
  }

  /** A row opens a group, or joins the last one if it has the same header. */
  function AddRow<T>(groups: seq<Group<T>>, arms: seq<string>, row: Row<T>): seq<Group<T>>
    requires row.arm in arms
  {
    var n := |groups| - 1;
    if groups == [] || groups[n].header != row.header then groups + [Group(row.header, [ItemOf(arms, row)])]
    else groups[..n] + [Group(row.header, groups[n].items + [ItemOf(arms, row)])]
  }

  predicate Listed<T>(rows: seq<Row<T>>, arms: seq<string>) { forall i | 0 <= i < |rows| :: rows[i].arm in arms }

  function GroupsOf<T>(rows: seq<Row<T>>, arms: seq<string>): seq<Group<T>>
    requires Listed(rows, arms)
  {
    if rows == [] then [] else AddRow(GroupsOf(rows[..|rows| - 1], arms), arms, rows[|rows| - 1])
  }

  function Pack<T>(rows: seq<Row<T>>): Packed<T> { Packed(ArmsOf(rows), GroupsOf(rows, ArmsOf(rows))) }

  predicate Resolvable<T>(groups: seq<Group<T>>, arms: seq<string>) {
    forall i, k | 0 <= i < |groups| && 0 <= k < |groups[i].items| :: groups[i].items[k].arm < |arms|
  }

  function RowOf<T>(arms: seq<string>, header: Header, item: Item<T>): Row<T>
    requires item.arm < |arms|
  {
    Row(header, item.round, arms[item.arm], item.rest)
  }

  function UnpackGroup<T>(arms: seq<string>, g: Group<T>): (r: seq<Row<T>>)
    requires forall k | 0 <= k < |g.items| :: g.items[k].arm < |arms|
    ensures |r| == |g.items|
  {
    seq(|g.items|, k requires 0 <= k < |g.items| => RowOf(arms, g.header, g.items[k]))
  }

  function Unpack<T>(groups: seq<Group<T>>, arms: seq<string>): seq<Row<T>>
    requires Resolvable(groups, arms)
  {
    if groups == [] then []
    else Unpack(groups[..|groups| - 1], arms) + UnpackGroup(arms, groups[|groups| - 1])
  }

  /** No group is empty and adjacent groups differ in their headers. */
  predicate Grouped<T>(groups: seq<Group<T>>) {
    && (forall i | 0 <= i < |groups| :: groups[i].items != [])
    && (forall i | 0 < i < |groups| :: groups[i - 1].header != groups[i].header)
  }

  /** The groups unpack to these rows, and could have been packed from them. */
  predicate Holds<T(==)>(groups: seq<Group<T>>, arms: seq<string>, rows: seq<Row<T>>) {
    Resolvable(groups, arms) && Grouped(groups) && Unpack(groups, arms) == rows
  }

  lemma OpenGroup<T>(groups: seq<Group<T>>, arms: seq<string>, rows: seq<Row<T>>, row: Row<T>)
    requires Holds(groups, arms, rows) && row.arm in arms
    requires groups != [] ==> groups[|groups| - 1].header != row.header
    ensures Holds(groups + [Group(row.header, [ItemOf(arms, row)])], arms, rows + [row])
  {
    var g := Group(row.header, [ItemOf(arms, row)]);
    assert (groups + [g])[..|groups|] == groups;
    assert UnpackGroup(arms, g) == [row];
  }

  lemma JoinGroup<T>(groups: seq<Group<T>>, arms: seq<string>, rows: seq<Row<T>>, row: Row<T>)
    requires Holds(groups, arms, rows) && row.arm in arms
    requires groups != [] && groups[|groups| - 1].header == row.header
    ensures var n := |groups| - 1;
            Holds(groups[..n] + [Group(row.header, groups[n].items + [ItemOf(arms, row)])], arms, rows + [row])
  {
    var n := |groups| - 1;
    var g := Group(row.header, groups[n].items + [ItemOf(arms, row)]);
    assert (groups[..n] + [g])[..n] == groups[..n];
    assert UnpackGroup(arms, g) == UnpackGroup(arms, groups[n]) + [row];
  }

  lemma HoldsAdd<T>(groups: seq<Group<T>>, arms: seq<string>, rows: seq<Row<T>>, row: Row<T>)
    requires Holds(groups, arms, rows) && row.arm in arms
    ensures Holds(AddRow(groups, arms, row), arms, rows + [row])
  {
    if groups == [] || groups[|groups| - 1].header != row.header { OpenGroup(groups, arms, rows, row); }
    else { JoinGroup(groups, arms, rows, row); }
  }

  /** Unpacking restores the rows, and adjacent groups always differ. */
  lemma {:induction false} GroupsRoundTrip<T>(rows: seq<Row<T>>, arms: seq<string>, groups: seq<Group<T>>)
    requires Listed(rows, arms) && groups == GroupsOf(rows, arms)
    ensures Holds(groups, arms, rows)
  {
    if rows != [] {
      var n := |rows| - 1;
      assert rows == rows[..n] + [rows[n]];
      GroupsRoundTrip(rows[..n], arms, GroupsOf(rows[..n], arms));
      HoldsAdd(GroupsOf(rows[..n], arms), arms, rows[..n], rows[n]);
    }
  }

  lemma ArmsListed<T>(rows: seq<Row<T>>)
    ensures Listed(rows, ArmsOf(rows))
  {
  }

  /** Packing is lossless, so the reconstruction check that follows it never fails. */
  lemma PackIsLossless<T>(rows: seq<Row<T>>)
    ensures var p := Pack(rows);
            && Resolvable(p.groups, p.arms) && Unpack(p.groups, p.arms) == rows
            && Grouped(p.groups) && Increasing(p.arms)
  {
    ArmsListed(rows);
    GroupsRoundTrip(rows, ArmsOf(rows), GroupsOf(rows, ArmsOf(rows)));
  }

  // ---------- as it runs ----------

  method PackTraces<T(==)>(rows: seq<Row<T>>) returns (packed: Packed<T>, same: bool)
    ensures packed == Pack(rows) && same
  {
    var arms := ArmsOf(rows);
    ArmsListed(rows);
    var groups := [];
    for i := 0 to |rows|
      invariant groups == GroupsOf(rows[..i], arms)
    {
      assert rows[..i + 1][..i] == rows[..i];
      groups := Place(groups, arms, rows[i]);
    }
    assert rows[..|rows|] == rows;
    packed := Packed(arms, groups);
    PackIsLossless(rows);
    var restored := Restore(groups, arms);
    same := restored == rows;
  }

  method Place<T>(groups: seq<Group<T>>, arms: seq<string>, row: Row<T>) returns (placed: seq<Group<T>>)
    requires row.arm in arms
    ensures placed == AddRow(groups, arms, row)
  {
    placed := groups;
    if placed == [] || placed[|placed| - 1].header != row.header {
      placed := placed + [Group(row.header, [])];
    }
    var n := |placed| - 1;
    assert placed[..n] + [placed[n]] == placed && [] + [ItemOf(arms, row)] == [ItemOf(arms, row)];
    var item := Item(row.round, IndexOf(arms, row.arm), row.rest);
    placed := placed[n := Group(placed[n].header, placed[n].items + [item])];
  }

  method Restore<T>(groups: seq<Group<T>>, arms: seq<string>) returns (restored: seq<Row<T>>)
    requires Resolvable(groups, arms)
    ensures restored == Unpack(groups, arms)
  {
    restored := [];
    for i := 0 to |groups|
      invariant restored == Unpack(groups[..i], arms)
    {
      assert groups[..i + 1][..i] == groups[..i];
      restored := restored + UnpackGroup(arms, groups[i]);
    }
    assert groups[..|groups|] == groups;
  }

  // ---------- canonical form ----------

  /** Exactly what packing can produce. */
  ghost predicate Canonical<T>(p: Packed<T>) {
    && Increasing(p.arms) && Resolvable(p.groups, p.arms) && Grouped(p.groups)
    && (forall x | x in p.arms ::
          exists i :: 0 <= i < |Unpack(p.groups, p.arms)| && Unpack(p.groups, p.arms)[i].arm == x)
  }

  lemma IndexOfItem(arms: seq<string>, k: nat)
    requires Increasing(arms) && k < |arms|
    ensures IndexOf(arms, arms[k]) == k
  {
    var i := IndexOf(arms, arms[k]);
    LessTotal(arms[i], arms[k]);
  }

  lemma JoinLast<T>(before: seq<Group<T>>, arms: seq<string>, items: seq<Item<T>>, row: Row<T>)
    requires row.arm in arms
    ensures AddRow(before + [Group(row.header, items)], arms, row) ==
            before + [Group(row.header, items + [ItemOf(arms, row)])]
  {
    var groups := before + [Group(row.header, items)];
    assert groups[..|groups| - 1] == before;
  }

  lemma GroupsGrow<T>(rows: seq<Row<T>>, arms: seq<string>, row: Row<T>)
    requires Listed(rows, arms) && row.arm in arms
    ensures Listed(rows + [row], arms) && GroupsOf(rows + [row], arms) == AddRow(GroupsOf(rows, arms), arms, row)
  {
    var all := rows + [row];
    assert all[..|all| - 1] == rows;
  }

  lemma ItemBack<T>(arms: seq<string>, header: Header, item: Item<T>)
    requires Increasing(arms) && item.arm < |arms|
    ensures RowOf(arms, header, item).arm in arms && ItemOf(arms, RowOf(arms, header, item)) == item
  {
    IndexOfItem(arms, item.arm);
  }

  /** Packing the rows of one more group adds that group. */
  lemma {:induction false} RegroupGroup<T>(before: seq<Group<T>>, arms: seq<string>, rows: seq<Row<T>>, header: Header,
                                           items: seq<Item<T>>)
    requires Increasing(arms) && Listed(rows, arms) && GroupsOf(rows, arms) == before
    requires before != [] ==> before[|before| - 1].header != header
    requires items != [] && forall j | 0 <= j < |items| :: items[j].arm < |arms|
    ensures var all := rows + UnpackGroup(arms, Group(header, items));
            Listed(all, arms) && GroupsOf(all, arms) == before + [Group(header, items)]
    decreases |items|
  {
    var n := |items| - 1;
    var front, row := items[..n], RowOf(arms, header, items[n]);
    assert items == front + [items[n]];
    assert UnpackGroup(arms, Group(header, items)) == UnpackGroup(arms, Group(header, front)) + [row];
    ItemBack(arms, header, items[n]);
    var all := rows + UnpackGroup(arms, Group(header, front));
    assert rows + UnpackGroup(arms, Group(header, items)) == all + [row];
    if n == 0 {
      assert all == rows;
      GroupsGrow(rows, arms, row);
    } else {
      RegroupGroup(before, arms, rows, header, front);
      GroupsGrow(all, arms, row);
      JoinLast(before, arms, front, row);
    }
  }

  lemma GroupedInit<T>(groups: seq<Group<T>>, arms: seq<string>)
    requires Resolvable(groups, arms) && Grouped(groups) && groups != []
    ensures var n := |groups| - 1;
            && Resolvable(groups[..n], arms) && Grouped(groups[..n])
            && (n > 0 ==> groups[..n][n - 1].header != groups[n].header)
            && groups[n].items != []
            && forall k | 0 <= k < |groups[n].items| :: groups[n].items[k].arm < |arms|
  {
    var n := |groups| - 1;
    var init := groups[..n];
    forall i | 0 <= i < n ensures init[i] == groups[i] {}
    forall i | 0 < i < n ensures init[i - 1].header != init[i].header {
      assert groups[i - 1].header != groups[i].header;
    }
  }

  lemma {:induction false} Regroup<T>(groups: seq<Group<T>>, arms: seq<string>)
    requires Increasing(arms) && Resolvable(groups, arms) && Grouped(groups)
    ensures Listed(Unpack(groups, arms), arms) && GroupsOf(Unpack(groups, arms), arms) == groups
  {
    if groups != [] {
      var n := |groups| - 1;
      var init, g := groups[..n], groups[n];
      assert groups == init + [g] && g == Group(g.header, g.items);
      GroupedInit(groups, arms);
      Regroup(init, arms);
      RegroupGroup(init, arms, Unpack(init, arms), g.header, g.items);
    }
  }

  /** A packed form is the packing of its own rows exactly if it is canonical. */
  lemma PackIsCanonical<T>(p: Packed<T>)
    requires Resolvable(p.groups, p.arms)
    ensures Pack(Unpack(p.groups, p.arms)) == p <==> Canonical(p)
  {
    var rows := Unpack(p.groups, p.arms);
    PackIsLossless(rows);
    if Canonical(p) {
      Regroup(p.groups, p.arms);
      forall x ensures x in ArmsOf(rows) <==> x in p.arms {}
      IncreasingUnique(ArmsOf(rows), p.arms);
    }
  }
}
