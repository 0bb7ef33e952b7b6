/** Typed records: the collections they come in, one collection's records in
    position order, side values by ID, and lists written out item by item. */
module Records {
  import opened Wrappers
  import opened Widths
  import opened Profiles
  import opened ConfigImport
  import opened Positions

  datatype Collection =
    | ProfileList | ProfileEnvs | ProfileConfig | HostList | KeyList | Credentials | KeySecrets

  datatype Value =
    | ProfileValue(profile: Profile)
    | EnvValue(env: Env)
    | DefaultValue(defaultID: string)
    | HostValue(host: Host)
    | KeyValue(key: SSHKey)
    | PasswordValue(password: string)
    | SecretValue(privateKey: string, passphrase: string)

  datatype PlainRecord = PlainRecord(collection: Collection, recordID: string, position: string, value: Value)

  // Whether a value has the shape its collection is read with.
  predicate Readable(r: PlainRecord) {
    match r.collection
    case ProfileList => r.value.ProfileValue?
    case ProfileEnvs => r.value.EnvValue?
    case ProfileConfig => r.value.DefaultValue?
    case HostList => r.value.HostValue?
    case KeyList => r.value.KeyValue?
    case Credentials => r.value.PasswordValue?
    case KeySecrets => r.value.SecretValue?
  }

  function EntityID(v: Value): string {
    match v
    case ProfileValue(p) => p.id
    case HostValue(h) => h.id
    case KeyValue(k) => k.id
    case _ => ""
  }

  predicate Before(a: PlainRecord, b: PlainRecord) {
    OrderedBefore(a.position, EntityID(a.value), b.position, EntityID(b.value))
  }

  // The records of one collection.
  function Of(records: seq<PlainRecord>, c: Collection): seq<PlainRecord> {
    if records == [] then []
    else
      var rest, r := Of(records[..|records| - 1], c), records[|records| - 1];
      if r.collection == c then rest + [r] else rest
  }

  // Sorting, by insertion. The source's sort may be any other: see SortIs.

  function Insert(s: seq<PlainRecord>, r: PlainRecord): seq<PlainRecord> {
    if s == [] then [r]
    else if Before(s[|s| - 1], r) then s + [r]
    else Insert(s[..|s| - 1], r) + [s[|s| - 1]]
  }

  function Sort(s: seq<PlainRecord>): seq<PlainRecord> {
    if s == [] then [] else Insert(Sort(s[..|s| - 1]), s[|s| - 1])
  }

  predicate Sorted(s: seq<PlainRecord>) {
    forall i, j :: 0 <= i < j < |s| ==> Before(s[i], s[j])
  }

  // What opening a record has checked: a readable position on every listed
  // record, and one record for each collection and ID.
  predicate Orderable(s: seq<PlainRecord>) {
    && (forall i :: 0 <= i < |s| ==> ValidPosition(s[i].position))
    && (forall i, j :: 0 <= i < j < |s| ==> EntityID(s[i].value) != EntityID(s[j].value))
  }

  lemma BeforeTransitive(a: PlainRecord, b: PlainRecord, c: PlainRecord)
    requires ValidPosition(a.position) && ValidPosition(b.position) && ValidPosition(c.position)
    requires Before(a, b) && Before(b, c)
    ensures Before(a, c)
  {
    OrderedBeforeTransitive(a.position, EntityID(a.value), b.position, EntityID(b.value), c.position, EntityID(c.value));
  }

  lemma BeforeTotal(a: PlainRecord, b: PlainRecord)
    requires ValidPosition(a.position) && ValidPosition(b.position)
    ensures !(Before(a, b) && Before(b, a)) && !Before(a, a)
    ensures EntityID(a.value) != EntityID(b.value) ==> Before(a, b) || Before(b, a)
  {
    OrderedBeforeTotal(a.position, EntityID(a.value), b.position, EntityID(b.value));
  }

  lemma SnocMembers(s: seq<PlainRecord>, r: PlainRecord)
    ensures multiset(s + [r]) == multiset(s) + multiset{r}
  {
  }

  lemma LastMember(s: seq<PlainRecord>)
    requires s != []
    ensures multiset(s) == multiset(s[..|s| - 1]) + multiset{s[|s| - 1]}
  {
    assert s == s[..|s| - 1] + [s[|s| - 1]];
    SnocMembers(s[..|s| - 1], s[|s| - 1]);
  }

  lemma {:induction false} InsertMembers(s: seq<PlainRecord>, r: PlainRecord)
    ensures multiset(Insert(s, r)) == multiset(s) + multiset{r}
  {
    hide Before;
    if s != [] {
      var init, last := s[..|s| - 1], s[|s| - 1];
      if Before(last, r) {
        SnocMembers(s, r);
      } else {
        InsertMembers(init, r);
        SnocMembers(Insert(init, r), last);
        LastMember(s);
      }
    }
  }

  lemma MemberOf(s: seq<PlainRecord>, t: seq<PlainRecord>, i: nat)
    requires i < |s| && multiset(s) == multiset(t)
    ensures s[i] in t
  {
    assert s[i] in multiset(s);
  }

  lemma {:induction false} InsertSorted(s: seq<PlainRecord>, r: PlainRecord)
    requires Sorted(s) && ValidPosition(r.position)
    requires forall i :: 0 <= i < |s| ==> ValidPosition(s[i].position) && EntityID(s[i].value) != EntityID(r.value)
    ensures Sorted(Insert(s, r))
  {
    hide Before, ValidPosition, EntityID;
    if s != [] {
      var init, last := s[..|s| - 1], s[|s| - 1];
      if Before(last, r) {
        forall i | 0 <= i < |s| - 1
          ensures Before(s[i], r)
        {
          BeforeTransitive(s[i], last, r);
        }
      } else {
        InsertSorted(init, r);
        BeforeTotal(last, r);
        var head := Insert(init, r);
        InsertMembers(init, r);
        forall i | 0 <= i < |head|
          ensures Before(head[i], last)
        {
          MemberOf(head, init + [r], i);
        }
      }
    }
  }

  lemma {:induction false} SortIs(s: seq<PlainRecord>)
    requires Orderable(s)
    ensures Sorted(Sort(s)) && multiset(Sort(s)) == multiset(s)
  {
    if s != [] {
      var init, r := s[..|s| - 1], s[|s| - 1];
      var sorted := Sort(init);
      SortIs(init);
      hide Before, ValidPosition, EntityID, Insert, Sorted;
      forall i | 0 <= i < |sorted|
        ensures ValidPosition(sorted[i].position) && EntityID(sorted[i].value) != EntityID(r.value)
      {
        MemberOf(sorted, init, i);
      }
      hide Orderable;
      InsertSorted(sorted, r);
      InsertMembers(sorted, r);
      LastMember(s);
    }
  }

  lemma SortedHeads(a: seq<PlainRecord>, b: seq<PlainRecord>)
    requires Sorted(a) && Sorted(b) && multiset(a) == multiset(b) && a != [] && b != []
    requires forall i :: 0 <= i < |a| ==> ValidPosition(a[i].position)
    ensures a[0] == b[0]
  {
    hide Before, ValidPosition;
    MemberOf(a, b, 0);
    MemberOf(b, a, 0);
    var i :| 0 <= i < |b| && b[i] == a[0];
    var j :| 0 <= j < |a| && a[j] == b[0];
    if i > 0 && j > 0 {
      assert Before(b[0], b[i]) && Before(a[0], a[j]);
      BeforeTotal(a[0], a[j]);
    }
  }

  lemma HeadMember(s: seq<PlainRecord>)
    requires s != []
    ensures multiset(s[1..]) == multiset(s) - multiset{s[0]} && s == [s[0]] + s[1..]
  {
    assert s == [s[0]] + s[1..];
  }

  // Two sorted lists of the same records are equal, so any algorithm yields
  // what Sort yields.
  lemma {:induction false} SortedUnique(a: seq<PlainRecord>, b: seq<PlainRecord>)
    requires Sorted(a) && Sorted(b) && multiset(a) == multiset(b)
    requires forall i :: 0 <= i < |a| ==> ValidPosition(a[i].position)
    ensures a == b
  {
    hide Before, ValidPosition;
    assert |a| == |multiset(a)| && |b| == |multiset(b)|;
    if a != [] {
      SortedHeads(a, b);
      HeadMember(a);
      HeadMember(b);
      SortedUnique(a[1..], b[1..]);
    }
  }

  lemma SortedOrderable(s: seq<PlainRecord>)
    requires Orderable(s) && Sorted(s)
    ensures Sort(s) == s
  {
    SortIs(s);
    SortedUnique(s, Sort(s));
  }

  lemma {:induction false} OfMembers(records: seq<PlainRecord>, c: Collection)
    ensures forall r :: r in Of(records, c) <==> r in records && r.collection == c
  {
    if records != [] {
      OfMembers(records[..|records| - 1], c);
      assert records == records[..|records| - 1] + [records[|records| - 1]];
    }
  }

  lemma {:induction false} OfCounts(records: seq<PlainRecord>, c: Collection)
    ensures forall r :: multiset(Of(records, c))[r] == if r.collection == c then multiset(records)[r] else 0
  {
    if records != [] {
      OfCounts(records[..|records| - 1], c);
      assert records == records[..|records| - 1] + [records[|records| - 1]];
    }
  }

  lemma OfPermuted(a: seq<PlainRecord>, b: seq<PlainRecord>, c: Collection)
    requires multiset(a) == multiset(b)
    ensures multiset(Of(a, c)) == multiset(Of(b, c))
  {
    OfCounts(a, c);
    OfCounts(b, c);
  }

  lemma {:induction false} OfJoin(a: seq<PlainRecord>, b: seq<PlainRecord>, c: Collection)
    ensures Of(a + b, c) == Of(a, c) + Of(b, c)
  {
    if b == [] {
      assert a + b == a;
    } else {
      OfJoin(a, b[..|b| - 1], c);
      assert (a + b)[..|a + b| - 1] == a + b[..|b| - 1];
    }
  }

  // What validating a record set has checked: a readable position and the ID of
  // its own value on each listed record, and one record for each collection and
  // ID.

  predicate Listed(c: Collection) {
    c == ProfileList || c == HostList || c == KeyList
  }

  predicate Checked(r: PlainRecord) {
    Listed(r.collection) ==> ValidPosition(r.position) && EntityID(r.value) == r.recordID
  }

  predicate SameKey(a: PlainRecord, b: PlainRecord) {
    a.collection == b.collection && a.recordID == b.recordID
  }

  ghost predicate CheckedSet(records: seq<PlainRecord>) {
    && (forall i :: 0 <= i < |records| ==> Checked(records[i]))
    && (forall i, j :: 0 <= i < j < |records| ==> !SameKey(records[i], records[j]))
  }

  predicate Apart(s: seq<PlainRecord>) {
    forall i, j :: 0 <= i < j < |s| ==> s[i].recordID != s[j].recordID
  }

  lemma {:induction false} OfApart(records: seq<PlainRecord>, c: Collection)
    requires CheckedSet(records)
    ensures Apart(Of(records, c))
    ensures Listed(c) ==> Orderable(Of(records, c))
  {
    if records != [] {
      var init, last := records[..|records| - 1], records[|records| - 1];
      OfApart(init, c);
      OfMembers(init, c);
      var rest := Of(init, c);
      if last.collection == c {
        forall i | 0 <= i < |rest|
          ensures rest[i].recordID != last.recordID && Checked(rest[i])
        {
          var k :| 0 <= k < |init| && init[k] == rest[i];
          assert !SameKey(records[k], last) && Checked(records[k]);
        }
        assert Checked(records[|records| - 1]);
      }
    }
  }

  lemma CheckedPermuted(a: seq<PlainRecord>, b: seq<PlainRecord>)
    requires CheckedSet(a) && multiset(a) == multiset(b)
    ensures CheckedSet(b)
  {
    forall i | 0 <= i < |b|
      ensures Checked(b[i])
    {
      MemberOf(b, a, i);
    }
    forall i, j | 0 <= i < j < |b|
      ensures !SameKey(b[i], b[j])
    {
      if SameKey(b[i], b[j]) {
        MemberOf(b, a, i);
        MemberOf(b, a, j);
        var k :| 0 <= k < |a| && a[k] == b[i];
        var l :| 0 <= l < |a| && a[l] == b[j];
        if k == l {
          TwiceIn(b, i, j);
          OnceIn(a, k);
        }
      }
    }
  }

  lemma TwiceIn(s: seq<PlainRecord>, i: nat, j: nat)
    requires i < j < |s| && s[i] == s[j]
    ensures multiset(s)[s[i]] >= 2
  {
    assert s == s[..i] + [s[i]] + s[i + 1..j] + [s[j]] + s[j + 1..];
  }

  lemma OnceIn(s: seq<PlainRecord>, i: nat)
    requires i < |s| && CheckedSet(s)
    ensures multiset(s)[s[i]] == 1
  {
    assert s == s[..i] + [s[i]] + s[i + 1..];
    assert forall k :: 0 <= k < |s| && k != i ==> s[k] != s[i];
  }

  // What a map filled from these records holds for an ID.
  function Side(s: seq<PlainRecord>, id: string): Option<Value> {
    if s == [] then None
    else if s[|s| - 1].recordID == id then Some(s[|s| - 1].value)
    else Side(s[..|s| - 1], id)
  }

  lemma {:induction false} SideIs(s: seq<PlainRecord>, id: string)
    requires Apart(s)
    ensures Side(s, id).Some? ==> exists i :: 0 <= i < |s| && s[i].recordID == id && s[i].value == Side(s, id).value
    ensures forall i :: 0 <= i < |s| && s[i].recordID == id ==> Side(s, id) == Some(s[i].value)
  {
    if s != [] && s[|s| - 1].recordID != id {
      SideIs(s[..|s| - 1], id);
    }
  }

  lemma SidePermuted(a: seq<PlainRecord>, b: seq<PlainRecord>, id: string)
    requires Apart(a) && Apart(b) && multiset(a) == multiset(b)
    ensures Side(a, id) == Side(b, id)
  {
    SideIs(a, id);
    SideIs(b, id);
    if Side(a, id).Some? {
      var i :| 0 <= i < |a| && a[i].recordID == id && a[i].value == Side(a, id).value;
      MemberOf(a, b, i);
    } else if Side(b, id).Some? {
      var i :| 0 <= i < |b| && b[i].recordID == id && b[i].value == Side(b, id).value;
      MemberOf(b, a, i);
    }
  }

  // Everything the encoders read from a record set: its lists in order, and its
  // side values by ID.
  lemma PermutedReads(a: seq<PlainRecord>, b: seq<PlainRecord>, c: Collection, id: string)
    requires CheckedSet(a) && multiset(a) == multiset(b)
    ensures Listed(c) ==> Sort(Of(a, c)) == Sort(Of(b, c))
    ensures Side(Of(a, c), id) == Side(Of(b, c), id)
  {
    CheckedPermuted(a, b);
    OfApart(a, c);
    OfApart(b, c);
    OfPermuted(a, b, c);
    SidePermuted(Of(a, c), Of(b, c), id);
    if Listed(c) {
      SortIs(Of(a, c));
      SortIs(Of(b, c));
      var sorted := Sort(Of(a, c));
      forall i | 0 <= i < |sorted|
        ensures ValidPosition(sorted[i].position)
      {
        MemberOf(sorted, Of(a, c), i);
      }
      SortedUnique(sorted, Sort(Of(b, c)));
    }
  }

  lemma OfOne(r: PlainRecord, c: Collection)
    ensures Of([r], c) == if r.collection == c then [r] else []
  {
  }

  predicate AllReadable(records: seq<PlainRecord>, cs: set<Collection>) {
    forall i :: 0 <= i < |records| && records[i].collection in cs ==> Readable(records[i])
  }

  lemma ReadableIn(records: seq<PlainRecord>, cs: set<Collection>, s: seq<PlainRecord>)
    requires AllReadable(records, cs) && forall i :: 0 <= i < |s| ==> s[i] in records && s[i].collection in cs
    ensures forall i :: 0 <= i < |s| ==> Readable(s[i])
  {
  }

  lemma {:induction false} ReadablePermuted(a: seq<PlainRecord>, b: seq<PlainRecord>, cs: set<Collection>)
    requires multiset(a) == multiset(b) && AllReadable(a, cs)
    ensures AllReadable(b, cs)
  {
    forall i | 0 <= i < |b| && b[i].collection in cs
      ensures Readable(b[i])
    {
      MemberOf(b, a, i);
    }
  }

  lemma SortReadable(records: seq<PlainRecord>, c: Collection)
    requires CheckedSet(records) && Listed(c)
    ensures forall i :: 0 <= i < |Sort(Of(records, c))| ==> Sort(Of(records, c))[i] in records && Sort(Of(records, c))[i].collection == c
  {
    var sorted := Sort(Of(records, c));
    OfApart(records, c);
    SortIs(Of(records, c));
    OfMembers(records, c);
    forall i | 0 <= i < |sorted|
      ensures sorted[i] in Of(records, c)
    {
      MemberOf(sorted, Of(records, c), i);
    }
  }

  // A list entry and the side record that may follow it.
  datatype Item = Item(listed: PlainRecord, side: Option<PlainRecord>)

  function Itemized(items: seq<Item>): seq<PlainRecord> {
    if items == [] then []
    else
      var item := items[|items| - 1];
      Itemized(items[..|items| - 1]) + [item.listed] + (if item.side.Some? then [item.side.value] else [])
  }

  function Sides(items: seq<Item>): seq<PlainRecord> {
    if items == [] then []
    else
      var rest, side := Sides(items[..|items| - 1]), items[|items| - 1].side;
      if side.Some? then rest + [side.value] else rest
  }

  predicate ItemsOf(items: seq<Item>, c: Collection, d: Collection) {
    && c != d
    && (forall i :: 0 <= i < |items| ==> items[i].listed.collection == c)
    && (forall i :: 0 <= i < |items| && items[i].side.Some? ==> items[i].side.value.collection == d)
  }

  function ListedOf(items: seq<Item>): seq<PlainRecord> {
    seq(|items|, i requires 0 <= i < |items| => items[i].listed)
  }

  function SideOf(item: Item): seq<PlainRecord> {
    if item.side.Some? then [item.side.value] else []
  }

  lemma OfSide(item: Item, d: Collection, e: Collection)
    requires item.side.Some? ==> item.side.value.collection == d
    ensures Of(SideOf(item), e) == if e == d then SideOf(item) else []
  {
  }

  lemma ItemizedSnoc(items: seq<Item>, item: Item, d: Collection, e: Collection)
    requires item.side.Some? ==> item.side.value.collection == d
    ensures Of(Itemized(items + [item]), e)
         == Of(Itemized(items), e) + (if item.listed.collection == e then [item.listed] else []) + (if e == d then SideOf(item) else [])
    ensures Sides(items + [item]) == Sides(items) + SideOf(item)
  {
    assert (items + [item])[..|items|] == items;
    OfJoin(Itemized(items) + [item.listed], SideOf(item), e);
    OfJoin(Itemized(items), [item.listed], e);
    OfOne(item.listed, e);
    OfSide(item, d, e);
  }

  lemma ItemizedNone(e: Collection)
    ensures Of(Itemized([]), e) == [] && Sides([]) == []
  {
  }

  lemma {:induction false} ItemizedOf(items: seq<Item>, c: Collection, d: Collection, e: Collection)
    requires ItemsOf(items, c, d)
    ensures Of(Itemized(items), e) == if e == c then ListedOf(items) else if e == d then Sides(items) else []
  {
    hide Of, Itemized, Sides;
    ItemizedNone(e);
    if items != [] {
      var init, item := items[..|items| - 1], items[|items| - 1];
      ItemizedOf(init, c, d, e);
      ItemizedSnoc(init, item, d, e);
      assert items == init + [item];
      assert ListedOf(items) == ListedOf(init) + [item.listed];
    }
  }

  // A list written out item by item: positions are indexes, IDs differ, and a
  // side record has the ID of its list entry.
  predicate Written(items: seq<Item>, c: Collection, d: Collection) {
    && ItemsOf(items, c, d) && Listed(c) && !Listed(d) && |items| <= TWO_TO_THE_64
    && (forall i :: 0 <= i < |items| ==>
          && items[i].listed.position == PositionForIndex(i)
          && EntityID(items[i].listed.value) == items[i].listed.recordID
          && (items[i].side.Some? ==> items[i].side.value.recordID == items[i].listed.recordID))
    && (forall i, j :: 0 <= i < j < |items| ==> items[i].listed.recordID != items[j].listed.recordID)
  }

  lemma IndexPosition(i: nat)
    requires i < TWO_TO_THE_64
    ensures ValidPosition(PositionForIndex(i)) && IndexFromPosition(PositionForIndex(i)) == Some(i)
  {
    PositionRoundTrip(i);
  }

  lemma WrittenSorted(items: seq<Item>, c: Collection, d: Collection)
    requires Written(items, c, d)
    ensures Orderable(ListedOf(items)) && Sort(ListedOf(items)) == ListedOf(items)
  {
    hide PositionForIndex, ValidPosition;
    var s := ListedOf(items);
    forall i | 0 <= i < |s|
      ensures ValidPosition(s[i].position) && IndexFromPosition(s[i].position) == Some(i)
    {
      IndexPosition(i);
    }
    assert Sorted(s);
    SortedOrderable(s);
  }

  lemma CheckedSnoc(s: seq<PlainRecord>, r: PlainRecord)
    requires CheckedSet(s) && Checked(r) && forall i :: 0 <= i < |s| ==> !SameKey(s[i], r)
    ensures CheckedSet(s + [r])
  {
  }

  lemma CheckedJoin(a: seq<PlainRecord>, b: seq<PlainRecord>)
    requires CheckedSet(a) && CheckedSet(b)
    requires forall i, j :: 0 <= i < |a| && 0 <= j < |b| ==> !SameKey(a[i], b[j])
    ensures CheckedSet(a + b)
  {
  }

  predicate From(r: PlainRecord, item: Item) {
    r == item.listed || Some(r) == item.side
  }

  lemma {:induction false} ItemizedFrom(items: seq<Item>, r: PlainRecord)
    requires r in Itemized(items)
    ensures exists k :: 0 <= k < |items| && From(r, items[k])
  {
    if items != [] {
      var init := items[..|items| - 1];
      if r in Itemized(init) {
        ItemizedFrom(init, r);
        var k :| 0 <= k < |init| && From(r, init[k]);
        assert From(r, items[k]);
      } else {
        assert From(r, items[|items| - 1]);
      }
    }
  }

  // What writing a list produces: each entry and each side record, and nothing
  // else.
  lemma {:induction false} ItemizedExactly(items: seq<Item>)
    ensures forall r :: r in Itemized(items) <==> exists k :: 0 <= k < |items| && From(r, items[k])
  {
    if items != [] {
      var init, n := items[..|items| - 1], |items| - 1;
      ItemizedExactly(init);
      assert forall k :: 0 <= k < n ==> init[k] == items[k];
      assert forall r :: r in Itemized(items) <==> r in Itemized(init) || From(r, items[n]);
    }
  }

  lemma EarlierDiffer(items: seq<Item>, c: Collection, d: Collection)
    requires Written(items, c, d) && items != []
    ensures var before := Itemized(items[..|items| - 1]);
      forall i :: 0 <= i < |before| ==> before[i].recordID != items[|items| - 1].listed.recordID
  {
    hide PositionForIndex, Itemized;
    var init := items[..|items| - 1];
    var before := Itemized(init);
    forall i | 0 <= i < |before|
      ensures before[i].recordID != items[|items| - 1].listed.recordID
    {
      ItemizedFrom(init, before[i]);
      var k :| 0 <= k < |init| && From(before[i], init[k]);
      assert items[k] == init[k];
    }
  }

  lemma CheckedItem(before: seq<PlainRecord>, item: Item)
    requires CheckedSet(before) && Checked(item.listed)
    requires item.side.Some? ==>
      && Checked(item.side.value) && item.side.value.collection != item.listed.collection
      && item.side.value.recordID == item.listed.recordID
    requires forall i :: 0 <= i < |before| ==> before[i].recordID != item.listed.recordID
    ensures CheckedSet(before + [item.listed] + SideOf(item))
  {
    hide CheckedSet, Checked;
    CheckedSnoc(before, item.listed);
    if item.side.Some? {
      CheckedSnoc(before + [item.listed], item.side.value);
    } else {
      assert before + [item.listed] + [] == before + [item.listed];
    }
  }

  lemma {:induction false} WrittenChecked(items: seq<Item>, c: Collection, d: Collection)
    requires Written(items, c, d)
    ensures CheckedSet(Itemized(items))
  {
    assert CheckedSet([]);
    hide PositionForIndex, ValidPosition, CheckedSet;
    if items != [] {
      var init, item := items[..|items| - 1], items[|items| - 1];
      var before := Itemized(init);
      assert Itemized(items) == before + [item.listed] + SideOf(item);
      WrittenChecked(init, c, d);
      EarlierDiffer(items, c, d);
      hide Itemized;
      IndexPosition(|init|);
      CheckedItem(before, item);
    }
  }

  lemma {:induction false} WrittenSides(items: seq<Item>, c: Collection, d: Collection, i: nat)
    requires Written(items, c, d) && i < |items|
    ensures Side(Sides(items), items[i].listed.recordID) == if items[i].side.Some? then Some(items[i].side.value.value) else None
  {
    var init, item := items[..|items| - 1], items[|items| - 1];
    if i < |init| {
      WrittenSides(init, c, d, i);
      assert init[i] == items[i];
    } else {
      NoSide(init, c, d, item.listed.recordID);
    }
    assert Sides(items) == Sides(init) + SideOf(item);
    assert (Sides(init) + SideOf(item))[..|Sides(init)|] == Sides(init);
  }

  lemma {:induction false} NoSide(items: seq<Item>, c: Collection, d: Collection, id: string)
    requires Written(items, c, d) && forall k :: 0 <= k < |items| ==> items[k].listed.recordID != id
    ensures Side(Sides(items), id) == None
  {
    if items != [] {
      var init, item := items[..|items| - 1], items[|items| - 1];
      NoSide(init, c, d, id);
      assert Sides(items) == Sides(init) + SideOf(item);
      assert (Sides(init) + SideOf(item))[..|Sides(init)|] == Sides(init);
    }
  }

  lemma {:induction false} WrittenReadable(items: seq<Item>, c: Collection, d: Collection)
    requires Written(items, c, d)
    requires forall i :: 0 <= i < |items| ==> Readable(items[i].listed) && (items[i].side.Some? ==> Readable(items[i].side.value))
    ensures forall r :: r in Itemized(items) ==> Readable(r)
  {
    if items != [] {
      WrittenReadable(items[..|items| - 1], c, d);
    }
  }

  // What reading a written list back gives, for its list and for each side value.
  lemma WrittenReads(items: seq<Item>, c: Collection, d: Collection)
    requires Written(items, c, d)
    ensures Sort(Of(Itemized(items), c)) == ListedOf(items)
    ensures forall i :: 0 <= i < |items| ==>
      Side(Of(Itemized(items), d), items[i].listed.recordID) == if items[i].side.Some? then Some(items[i].side.value.value) else None
  {
    assert ItemsOf(items, c, d);
    hide Written;
    WrittenSorted(items, c, d);
    ItemizedOf(items, c, d, c);
    ItemizedOf(items, c, d, d);
    forall i | 0 <= i < |items|
      ensures Side(Sides(items), items[i].listed.recordID) == if items[i].side.Some? then Some(items[i].side.value.value) else None
    {
      WrittenSides(items, c, d, i);
    }
  }
}
