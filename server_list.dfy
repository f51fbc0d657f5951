/** The server list component: the sort-field and direction state, the
    comparator and the sorted copy of the list, and the edit-form state. */
module ServerList {
  import opened Wrappers
  import opened Calculations
  import opened ServerModel

  datatype SortField =
    | Name | MonthlyCostBDT | CostPerGB | XFactor | CreatedAt | Bandwidth | SlNo | OriginalPriceBDT | MonthlyPriceUSD

  datatype SortDirection = Asc | Desc

  /** The (sortField, sortDirection) pair. */
  datatype SortState = SortState(field: SortField, direction: SortDirection)

  /** The state the component starts in: x-factor, ascending. */
  const INITIAL_SORT := SortState(XFactor, Asc)

  /** handleSort: a click on the current field flips the direction; a click on
      another field selects it, ascending. */
  function NextSort(s: SortState, clicked: SortField): (r: SortState)
    ensures r.field == clicked
    ensures clicked == s.field ==> r.direction != s.direction
    ensures clicked != s.field ==> r.direction == Asc
  {
    if s.field == clicked then SortState(s.field, if s.direction == Asc then Desc else Asc)
    else SortState(clicked, Asc)
  }

  /** Two clicks on the current field give back the original state. */
  lemma SortTwiceRestores(s: SortState)
    ensures NextSort(NextSort(s, s.field), s.field) == s
  {
  }

  /** Two clicks on a new field leave it selected in descending order. */
  lemma SortNewFieldTwiceIsDescending(s: SortState, f: SortField)
    requires f != s.field
    ensures NextSort(NextSort(s, f), f) == SortState(f, Desc)
  {
  }

  /** A comparison key: a number, or a string compared as JavaScript does. */
  datatype Key = NumKey(n: real) | TextKey(t: string)

  /** JavaScript's `<` on strings: lexicographic by character. */
  predicate TextLess(a: string, b: string) {
    if a == [] then b != []
    else b != [] && (a[0] < b[0] || (a[0] == b[0] && TextLess(a[1..], b[1..])))
  }

  lemma {:induction false} TextLessIrreflexive(a: string)
    ensures !TextLess(a, a)
  {
    if a != [] {
      TextLessIrreflexive(a[1..]);
    }
  }

  lemma {:induction false} TextLessTransitive(a: string, b: string, c: string)
    requires TextLess(a, b) && TextLess(b, c)
    ensures TextLess(a, c)
  {
    if a != [] && a[0] == b[0] && b[0] == c[0] {
      TextLessTransitive(a[1..], b[1..], c[1..]);
    }
  }

  /** Two different strings are ordered one way or the other. */
  lemma {:induction false} TextLessTotal(a: string, b: string)
    requires a != b
    ensures TextLess(a, b) || TextLess(b, a)
  {
    if a != [] && b != [] && a[0] == b[0] {
      assert a == [a[0]] + a[1..] && b == [b[0]] + b[1..];
      TextLessTotal(a[1..], b[1..]);
    }
  }

  /** `aValue < bValue` on two keys of the same field. */
  predicate KeyLess(a: Key, b: Key) {
    match (a, b)
    case (NumKey(x), NumKey(y)) => x < y
    case (TextKey(x), TextKey(y)) => TextLess(x, y)
    case _ => false
  }

  lemma KeyLessIrreflexive(a: Key)
    ensures !KeyLess(a, a)
  {
    if a.TextKey? {
      TextLessIrreflexive(a.t);
    }
  }

  lemma KeyLessTransitive(a: Key, b: Key, c: Key)
    requires KeyLess(a, b) && KeyLess(b, c)
    ensures KeyLess(a, c)
  {
    if a.TextKey? {
      TextLessTransitive(a.t, b.t, c.t);
    }
  }

  /** The comparator: -1, 0 or 1, ordering by the key ascending or descending;
      keys neither of which is less than the other compare as 0. */
  function Compare(a: Key, b: Key, dir: SortDirection): (r: int)
    ensures r == -1 || r == 0 || r == 1
    ensures r == 0 <==> !KeyLess(a, b) && !KeyLess(b, a)
    ensures dir == Asc ==> (r == -1 <==> KeyLess(a, b)) && (r == 1 <==> KeyLess(b, a))
    ensures dir == Desc ==> (r == -1 <==> KeyLess(b, a)) && (r == 1 <==> KeyLess(a, b))
  {
    KeyLessIrreflexive(a);
    if KeyLess(a, b) then KeyLessAsymmetric(a, b); (if dir == Asc then -1 else 1)
    else if KeyLess(b, a) then KeyLessAsymmetric(b, a); (if dir == Asc then 1 else -1)
    else 0
  }

  lemma KeyLessAsymmetric(a: Key, b: Key)
    requires KeyLess(a, b)
    ensures !KeyLess(b, a)
  {
    if KeyLess(b, a) {
      KeyLessTransitive(a, b, a);
      KeyLessIrreflexive(a);
    }
  }

  /** Equal keys compare as 0, and keys of the same kind compare as 0 only when equal. */
  lemma CompareZeroIffEqual(a: Key, b: Key, dir: SortDirection)
    requires a.NumKey? == b.NumKey?
    ensures Compare(a, b, dir) == 0 <==> a == b
  {
    KeyLessIrreflexive(a);
    if a != b && a.TextKey? {
      TextLessTotal(a.t, b.t);
    }
  }

  /** Swapping the arguments, or the direction, negates the comparator. */
  lemma CompareIsAntisymmetric(a: Key, b: Key, dir: SortDirection)
    ensures Compare(a, b, dir) == -Compare(b, a, dir)
    ensures Compare(a, b, Desc) == -Compare(a, b, Asc)
  {
  }

  /** The position of a record in the list (`servers.indexOf`), -1 if absent. */
  function IndexOf(servers: seq<ServerRecord>, s: ServerRecord): (r: int)
    ensures -1 <= r < |servers|
    ensures r >= 0 ==> servers[r] == s && forall j :: 0 <= j < r ==> servers[j] != s
    ensures r == -1 ==> s !in servers
  {
    if servers == [] then -1
    else if servers[0] == s then 0
    else
      var k := IndexOf(servers[1..], s);
      if k == -1 then -1 else k + 1
  }

  /** The key a field sorts by. `lower` stands for `toLowerCase` and `toUSD`
      for `convertBDTToUSD`, neither of which is defined in the code modelled. */
  function SortKey(field: SortField, servers: seq<ServerRecord>, s: ServerRecord,
                   lower: string -> string, toUSD: real -> real): Key
  {
    match field
    case Name => TextKey(lower(s.name))
    case XFactor => NumKey(s.xFactor)
    case MonthlyCostBDT => NumKey(s.monthlyCostBDT)
    case CostPerGB => NumKey(s.costPerGB)
    case CreatedAt => NumKey(s.createdAt as real)
    case Bandwidth => NumKey(s.bandwidth)
    case SlNo => NumKey(IndexOf(servers, s) as real)
    case OriginalPriceBDT => NumKey(if s.originalCurrency == BDT then s.originalPrice else toUSD(s.originalPrice))
    case MonthlyPriceUSD => NumKey(toUSD(s.monthlyCostBDT))
  }

  /** The key function for one field over one list. */
  function KeyOf(field: SortField, servers: seq<ServerRecord>, lower: string -> string, toUSD: real -> real)
    : ServerRecord -> Key
  {
    (s: ServerRecord) => SortKey(field, servers, s, lower, toUSD)
  }

  /** One step of a stable insertion sort: `x` goes before the first element
      it compares strictly below. */
  function Insert(x: ServerRecord, sorted: seq<ServerRecord>, key: ServerRecord -> Key, dir: SortDirection)
    : (r: seq<ServerRecord>)
    ensures multiset(r) == multiset(sorted) + multiset{x}
  {
    if sorted == [] then [x]
    else if Compare(key(x), key(sorted[0]), dir) < 0 then [x] + sorted
    else
      var rest := Insert(x, sorted[1..], key, dir);
      assert sorted == [sorted[0]] + sorted[1..];
      [sorted[0]] + rest
  }

  /** The sort of a copied array: a stable sort by the comparator. */
  function SortBy(s: seq<ServerRecord>, key: ServerRecord -> Key, dir: SortDirection): (r: seq<ServerRecord>)
    ensures multiset(r) == multiset(s)
  {
    if s == [] then []
    else
      assert s == s[..|s| - 1] + [s[|s| - 1]];
      Insert(s[|s| - 1], SortBy(s[..|s| - 1], key, dir), key, dir)
  }

  /** No two elements are out of order for the comparator. */
  predicate SortedBy(s: seq<ServerRecord>, key: ServerRecord -> Key, dir: SortDirection) {
    forall i, j :: 0 <= i < j < |s| ==> Compare(key(s[i]), key(s[j]), dir) <= 0
  }

  /** "Strictly before" for the comparator is transitive. */
  lemma BeforeTransitive(a: Key, b: Key, c: Key, dir: SortDirection)
    requires Compare(a, b, dir) < 0 && Compare(b, c, dir) < 0
    ensures Compare(a, c, dir) < 0
  {
    if dir == Asc {
      KeyLessTransitive(a, b, c);
    } else {
      KeyLessTransitive(c, b, a);
    }
  }

  lemma {:induction false} InsertKeepsSorted(x: ServerRecord, s: seq<ServerRecord>, key: ServerRecord -> Key, dir: SortDirection)
    requires SortedBy(s, key, dir)
    ensures SortedBy(Insert(x, s, key, dir), key, dir)
  {
    if s == [] {
    } else if Compare(key(x), key(s[0]), dir) < 0 {
      forall j | 0 <= j < |s| ensures Compare(key(x), key(s[j]), dir) <= 0 {
        BeforeHeadBeforeAll(x, s, key, dir, j);
      }
      ConsSorted(x, s, key, dir);
    } else {
      assert SortedBy(s[1..], key, dir);
      InsertKeepsSorted(x, s[1..], key, dir);
      var rest := Insert(x, s[1..], key, dir);
      forall j | 0 <= j < |rest| ensures Compare(key(s[0]), key(rest[j]), dir) <= 0 {
        HeadBeforeInserted(x, s, key, dir, j);
      }
      ConsSorted(s[0], rest, key, dir);
    }
  }

  /** A head at or before every element of a sorted tail keeps it sorted. */
  lemma ConsSorted(h: ServerRecord, t: seq<ServerRecord>, key: ServerRecord -> Key, dir: SortDirection)
    requires SortedBy(t, key, dir)
    requires forall j :: 0 <= j < |t| ==> Compare(key(h), key(t[j]), dir) <= 0
    ensures SortedBy([h] + t, key, dir)
  {
    var r := [h] + t;
    forall i, j | 0 <= i < j < |r| ensures Compare(key(r[i]), key(r[j]), dir) <= 0 {
      assert r[j] == t[j - 1];
      if i > 0 {
        assert r[i] == t[i - 1];
      }
    }
  }

  /** What goes strictly before the head of a sorted list goes before all of it. */
  lemma BeforeHeadBeforeAll(x: ServerRecord, s: seq<ServerRecord>, key: ServerRecord -> Key, dir: SortDirection, j: int)
    requires SortedBy(s, key, dir) && 0 <= j < |s|
    requires Compare(key(x), key(s[0]), dir) < 0
    ensures Compare(key(x), key(s[j]), dir) <= 0
  {
    if Compare(key(s[j]), key(x), dir) < 0 {
      BeforeTransitive(key(s[j]), key(x), key(s[0]), dir);
      KeyLessIrreflexive(key(s[0]));
    }
  }

  /** The head of a sorted list that `x` does not go before is at or before
      every element of the tail with `x` inserted. */
  lemma HeadBeforeInserted(x: ServerRecord, s: seq<ServerRecord>, key: ServerRecord -> Key, dir: SortDirection, j: int)
    requires SortedBy(s, key, dir) && s != []
    requires Compare(key(x), key(s[0]), dir) >= 0
    requires 0 <= j < |Insert(x, s[1..], key, dir)|
    ensures Compare(key(s[0]), key(Insert(x, s[1..], key, dir)[j]), dir) <= 0
  {
    var y := Insert(x, s[1..], key, dir)[j];
    assert y in multiset(Insert(x, s[1..], key, dir));
    if y == x {
      CompareIsAntisymmetric(key(x), key(s[0]), dir);
    } else {
      assert y in multiset(s[1..]);
      var k :| 0 <= k < |s[1..]| && s[1..][k] == y;
      assert s[k + 1] == y;
    }
  }

  /** The sort's output is ordered by the comparator. */
  lemma {:induction false} SortByIsSorted(s: seq<ServerRecord>, key: ServerRecord -> Key, dir: SortDirection)
    ensures SortedBy(SortBy(s, key, dir), key, dir)
  {
    if s != [] {
      SortByIsSorted(s[..|s| - 1], key, dir);
      InsertKeepsSorted(s[|s| - 1], SortBy(s[..|s| - 1], key, dir), key, dir);
    }
  }

  /** Inserting an element that is strictly before none appends it. */
  lemma {:induction false} InsertAtEnd(x: ServerRecord, s: seq<ServerRecord>, key: ServerRecord -> Key, dir: SortDirection)
    requires forall j :: 0 <= j < |s| ==> Compare(key(x), key(s[j]), dir) >= 0
    ensures Insert(x, s, key, dir) == s + [x]
  {
    if s != [] {
      InsertAtEnd(x, s[1..], key, dir);
      assert [s[0]] + (s[1..] + [x]) == s + [x];
    }
  }

  /** The list sorted by the component's current field and direction. */
  function SortedServers(servers: seq<ServerRecord>, state: SortState, lower: string -> string, toUSD: real -> real)
    : seq<ServerRecord>
  {
    SortBy(servers, KeyOf(state.field, servers, lower, toUSD), state.direction)
  }

  /** The sorted list is a permutation of the input. */
  lemma SortedServersIsPermutation(servers: seq<ServerRecord>, state: SortState, lower: string -> string, toUSD: real -> real)
    ensures multiset(SortedServers(servers, state, lower, toUSD)) == multiset(servers)
    ensures |SortedServers(servers, state, lower, toUSD)| == |servers|
  {
    var r := SortedServers(servers, state, lower, toUSD);
    assert |multiset(r)| == |multiset(servers)|;
  }

  /** Ascending sorts give non-decreasing keys, descending ones non-increasing keys. */
  lemma SortedServersIsOrdered(servers: seq<ServerRecord>, state: SortState, lower: string -> string, toUSD: real -> real,
                               i: nat, j: nat)
    requires i < j < |SortedServers(servers, state, lower, toUSD)|
    ensures var r := SortedServers(servers, state, lower, toUSD);
            var key := KeyOf(state.field, servers, lower, toUSD);
            && (state.direction == Asc ==> !KeyLess(key(r[j]), key(r[i])))
            && (state.direction == Desc ==> !KeyLess(key(r[i]), key(r[j])))
  {
    SortByIsSorted(servers, KeyOf(state.field, servers, lower, toUSD), state.direction);
  }

  /** In a list of distinct records, each record's SL No key is its position. */
  predicate Distinct(servers: seq<ServerRecord>) {
    forall i, j :: 0 <= i < j < |servers| ==> servers[i] != servers[j]
  }

  lemma IndexOfDistinct(servers: seq<ServerRecord>, k: nat)
    requires Distinct(servers) && k < |servers|
    ensures IndexOf(servers, servers[k]) == k
  {
  }

  /** Sorting by SL No ascending gives back the input order. */
  lemma SlNoAscendingKeepsOrder(servers: seq<ServerRecord>, lower: string -> string, toUSD: real -> real)
    requires Distinct(servers)
    ensures SortedServers(servers, SortState(SlNo, Asc), lower, toUSD) == servers
  {
    var key := KeyOf(SlNo, servers, lower, toUSD);
    forall i, j | 0 <= i < j < |servers| ensures Compare(key(servers[i]), key(servers[j]), Asc) <= 0 {
      SlNoKeyIsPosition(servers, lower, toUSD, i);
      SlNoKeyIsPosition(servers, lower, toUSD, j);
    }
    SortOfSortedIsIdentity(servers, key, Asc);
  }

  /** A list already in order is left as it is: the sort is stable. */
  lemma {:induction false} SortOfSortedIsIdentity(s: seq<ServerRecord>, key: ServerRecord -> Key, dir: SortDirection)
    requires SortedBy(s, key, dir)
    ensures SortBy(s, key, dir) == s
  {
    if s != [] {
      var init := s[..|s| - 1];
      var x := s[|s| - 1];
      assert s == init + [x];
      SortedSplit(s, init, x, key, dir);
      SortOfSortedIsIdentity(init, key, dir);
      InsertAtEnd(x, init, key, dir);
    }
  }

  /** A sorted list's prefix is sorted, and its last element is strictly
      before none of the prefix. */
  lemma SortedSplit(s: seq<ServerRecord>, init: seq<ServerRecord>, x: ServerRecord,
                    key: ServerRecord -> Key, dir: SortDirection)
    requires s == init + [x] && SortedBy(s, key, dir)
    ensures SortedBy(init, key, dir)
    ensures forall j :: 0 <= j < |init| ==> Compare(key(x), key(init[j]), dir) >= 0
  {
    forall i, j | 0 <= i < j < |init| ensures Compare(key(init[i]), key(init[j]), dir) <= 0 {
      assert init[i] == s[i] && init[j] == s[j];
    }
    forall j | 0 <= j < |init| ensures Compare(key(x), key(init[j]), dir) >= 0 {
      assert init[j] == s[j] && x == s[|init|];
      CompareIsAntisymmetric(key(x), key(s[j]), dir);
    }
  }

  /** Sorting twice gives the same list as sorting once. */
  lemma SortIsIdempotent(s: seq<ServerRecord>, key: ServerRecord -> Key, dir: SortDirection)
    ensures SortBy(SortBy(s, key, dir), key, dir) == SortBy(s, key, dir)
  {
    SortByIsSorted(s, key, dir);
    SortOfSortedIsIdentity(SortBy(s, key, dir), key, dir);
  }

  lemma SlNoKeyIsPosition(servers: seq<ServerRecord>, lower: string -> string, toUSD: real -> real, k: nat)
    requires Distinct(servers) && k < |servers|
    ensures KeyOf(SlNo, servers, lower, toUSD)(servers[k]) == NumKey(k as real)
  {
    IndexOfDistinct(servers, k);
  }

  /** The editable copy of a server's raw fields. */
  datatype EditForm = EditForm(
    name: string, originalPrice: real, originalCurrency: string, duration: real, bandwidth: real, websiteLink: string)

  /** The empty form the component starts with and returns to on cancel. */
  const EMPTY_EDIT_FORM := EditForm("", 0.0, "USD", 1.0, 0.0, "")

  /** The form handleEdit fills from a server; a missing link becomes ''. */
  function EditFormOf(s: ServerRecord): (f: EditForm)
    ensures f.name == s.name && f.originalPrice == s.originalPrice && f.duration == s.duration
    ensures f.bandwidth == s.bandwidth && f.websiteLink == s.websiteLink.GetOr("")
    ensures f.originalCurrency == CurrencyCode(s.originalCurrency)
  {
    EditForm(s.name, s.originalPrice, CurrencyCode(s.originalCurrency), s.duration, s.bandwidth, s.websiteLink.GetOr(""))
  }

  /** The fields of the edit form. */
  datatype EditField = NameField | PriceField | CurrencyField | DurationField | BandwidthField | LinkField

  /** A form value: text or a number. */
  datatype FieldValue = Text(s: string) | Number(n: real)

  /** One `handleEditFormChange(field, value)` call. */
  datatype EditChange =
    | SetName(name: string) | SetPrice(price: real) | SetCurrency(code: string)
    | SetDuration(duration: real) | SetBandwidth(bandwidth: real) | SetLink(link: string)

  function FieldOf(f: EditForm, field: EditField): FieldValue {
    match field
    case NameField => Text(f.name)
    case PriceField => Number(f.originalPrice)
    case CurrencyField => Text(f.originalCurrency)
    case DurationField => Number(f.duration)
    case BandwidthField => Number(f.bandwidth)
    case LinkField => Text(f.websiteLink)
  }

  function ChangedField(c: EditChange): EditField {
    match c
    case SetName(_) => NameField
    case SetPrice(_) => PriceField
    case SetCurrency(_) => CurrencyField
    case SetDuration(_) => DurationField
    case SetBandwidth(_) => BandwidthField
    case SetLink(_) => LinkField
  }

  function NewValue(c: EditChange): FieldValue {
    match c
    case SetName(v) => Text(v)
    case SetPrice(v) => Number(v)
    case SetCurrency(v) => Text(v)
    case SetDuration(v) => Number(v)
    case SetBandwidth(v) => Number(v)
    case SetLink(v) => Text(v)
  }

  /** `{ ...prev, [field]: value }`. */
  function ApplyChange(f: EditForm, c: EditChange): EditForm {
    match c
    case SetName(v) => f.(name := v)
    case SetPrice(v) => f.(originalPrice := v)
    case SetCurrency(v) => f.(originalCurrency := v)
    case SetDuration(v) => f.(duration := v)
    case SetBandwidth(v) => f.(bandwidth := v)
    case SetLink(v) => f.(websiteLink := v)
  }

  /** A change sets its own field to its value and leaves every other field as it was. */
  lemma ChangeTouchesOnlyItsField(f: EditForm, c: EditChange, field: EditField)
    ensures FieldOf(ApplyChange(f, c), field) == if field == ChangedField(c) then NewValue(c) else FieldOf(f, field)
  {
  }

  /** The component's state. */
  class ServerListComponent {
    var sortField: SortField
    var sortDirection: SortDirection
    var editingServer: Option<ServerRecord>
    var editForm: EditForm

    constructor ()
      ensures SortState(sortField, sortDirection) == INITIAL_SORT
      ensures editingServer == None && editForm == EMPTY_EDIT_FORM
    {
      sortField := XFactor;
      sortDirection := Asc;
      editingServer := None;
      editForm := EMPTY_EDIT_FORM;
    }

    function Sort(): SortState
      reads this
    {
      SortState(sortField, sortDirection)
    }

    method HandleSort(field: SortField)
      modifies this`sortField, this`sortDirection
      ensures Sort() == NextSort(old(Sort()), field)
    {
      if sortField == field {
        sortDirection := if sortDirection == Asc then Desc else Asc;
      } else {
        sortField := field;
        sortDirection := Asc;
      }
    }

    method HandleEdit(server: ServerRecord)
      modifies this`editingServer, this`editForm
      ensures editingServer == Some(server) && editForm == EditFormOf(server)
    {
      editingServer := Some(server);
      editForm := EditForm(server.name, server.originalPrice, CurrencyCode(server.originalCurrency),
                           server.duration, server.bandwidth, server.websiteLink.GetOr(""));
    }

    method HandleCancelEdit()
      modifies this`editingServer, this`editForm
      ensures editingServer == None && editForm == EMPTY_EDIT_FORM
    {
      editingServer := None;
      editForm := EMPTY_EDIT_FORM;
    }

    method HandleEditFormChange(change: EditChange)
      modifies this`editForm
      ensures editForm == ApplyChange(old(editForm), change)
      ensures forall field :: field != ChangedField(change) ==> FieldOf(editForm, field) == FieldOf(old(editForm), field)
    {
      editForm := match change
        case SetName(v) => editForm.(name := v)
        case SetPrice(v) => editForm.(originalPrice := v)
        case SetCurrency(v) => editForm.(originalCurrency := v)
        case SetDuration(v) => editForm.(duration := v)
        case SetBandwidth(v) => editForm.(bandwidth := v)
        case SetLink(v) => editForm.(websiteLink := v);
    }

    /** `sortedServers`: a sorted copy; the list passed in is a value and is not changed. */
    function SortedCopy(servers: seq<ServerRecord>, lower: string -> string, toUSD: real -> real): (r: seq<ServerRecord>)
      reads this
      ensures multiset(r) == multiset(servers)
      ensures SortedBy(r, KeyOf(sortField, servers, lower, toUSD), sortDirection)
    {
      SortByIsSorted(servers, KeyOf(sortField, servers, lower, toUSD), sortDirection);
      SortedServers(servers, Sort(), lower, toUSD)
    }
  }
}
