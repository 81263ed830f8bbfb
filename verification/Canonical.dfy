/** The canonical JSON profile AK-CJ-1: normalization, and what its text does not depend on. */
module Canonical {
  import opened Wrappers
  import opened Ordering
  import opened Decimals
  import opened JsonText

  /** A mapping key: a string, or anything else. */
  datatype Key = Text(s: string) | OtherKey

  /** Values as they come in: mappings and sets in the order in which they are enumerated. */
  datatype Value =
    | Null
    | Boolean(b: bool)
    | Integer(n: int)
    | Str(s: string)
    | Dec(d: Decimal)
    | Mapping(entries: seq<Entry>)
    | SetOf(items: seq<Value>)
    | ListOf(items: seq<Value>)
    | Unsupported

  datatype Entry = Entry(key: Key, value: Value)

  predicate Ascii(s: string) {
    forall i | 0 <= i < |s| :: s[i] as int < 128
  }

  /** What is assumed of Unicode normalization. */
  ghost predicate IsNfc(nfc: string -> string) {
    && (forall s :: nfc(nfc(s)) == nfc(s))
    && (forall s | Ascii(s) :: nfc(s) == s)
  }

  // ----- sorting by text --------------------------------------------------------------------------

  predicate Precedes(a: Json, b: Json) {
    Print(a) == Print(b) || Less(Print(a), Print(b))
  }

  ghost predicate SortedByText(items: seq<Json>) {
    forall i, j | 0 <= i < j < |items| :: Precedes(items[i], items[j])
  }

  function Insert(x: Json, items: seq<Json>): (r: seq<Json>)
    ensures multiset(r) == multiset(items) + multiset{x}
  {
    if items == [] then [x]
    else if Precedes(x, items[0]) then [x] + items
    else
      assert items == [items[0]] + items[1..];
      [items[0]] + Insert(x, items[1..])
  }

  /** `sorted(items, key=canonical_json_text)` for items that are normalized already. */
  function SortItems(items: seq<Json>): (r: seq<Json>)
    ensures multiset(r) == multiset(items)
  {
    if items == [] then []
    else
      assert items == items[..|items| - 1] + [items[|items| - 1]];
      Insert(items[|items| - 1], SortItems(items[..|items| - 1]))
  }

  // ----- normalization ----------------------------------------------------------------------------

  function Normalized(nfc: string -> string, v: Value): Result<Json>
    decreases v
  {
    match v
    case Null => Success(JNull)
    case Boolean(b) => Success(JBool(b))
    case Integer(n) => Success(JInt(n))
    case Str(s) => Success(JStr(nfc(s)))
    case Dec(d) =>
      var text := Rendered(d);
      if text.Failure? then Failure(text.error) else Success(JStr(text.value))
    case Mapping(entries) =>
      var r := NormalizedEntries(nfc, entries);
      if r.Failure? then Failure(r.error) else Success(JObj(r.value))
    case SetOf(items) =>
      var r := NormalizedItems(nfc, items);
      if r.Failure? then Failure(r.error) else Success(JArr(SortItems(r.value)))
    case ListOf(items) =>
      var r := NormalizedItems(nfc, items);
      if r.Failure? then Failure(r.error) else Success(JArr(r.value))
    case Unsupported => Failure(ValidationError)
  }

  function NormalizedItems(nfc: string -> string, items: seq<Value>): Result<seq<Json>>
    decreases items
  {
    if items == [] then Success([])
    else AddItem(NormalizedItems(nfc, items[..|items| - 1]), Normalized(nfc, items[|items| - 1]))
  }

  function AddItem(done: Result<seq<Json>>, item: Result<Json>): Result<seq<Json>> {
    if done.Failure? || item.Failure? then Failure(ValidationError) else Success(done.value + [item.value])
  }

  function NormalizedEntries(nfc: string -> string, entries: seq<Entry>): Result<map<string, Json>>
    decreases entries
  {
    if entries == [] then Success(map[])
    else
      var last := entries[|entries| - 1];
      assert last.value < last;
      AddEntry(nfc, NormalizedEntries(nfc, entries[..|entries| - 1]), last.key, Normalized(nfc, last.value))
  }

  function AddEntry(nfc: string -> string, done: Result<map<string, Json>>, key: Key, value: Result<Json>)
    : Result<map<string, Json>>
  {
    if done.Failure? || key.OtherKey? || nfc(key.s) in done.value || value.Failure? then
      Failure(ValidationError)
    else Success(done.value[nfc(key.s) := value.value])
  }

  lemma {:induction false} OneFailureCode(nfc: string -> string, v: Value)
    ensures Normalized(nfc, v).Failure? ==> Normalized(nfc, v).error == ValidationError
  {}

  lemma OneItemsFailureCode(nfc: string -> string, items: seq<Value>)
    ensures NormalizedItems(nfc, items).Failure? ==>
              NormalizedItems(nfc, items).error == ValidationError
  {}

  /** `_normalize`. */
  method Normalize(nfc: string -> string, v: Value) returns (r: Result<Json>)
    ensures r == Normalized(nfc, v)
    decreases v
  {
    hide Insert, SortItems, Rendered;
    match v
    case Null => return Success(JNull);
    case Boolean(b) => return Success(JBool(b));
    case Integer(n) => return Success(JInt(n));
    case Str(s) => return Success(JStr(nfc(s)));
    case Dec(d) =>
      var text := RenderDecimal(d);
      return if text.Failure? then Failure(text.error) else Success(JStr(text.value));
    case Mapping(entries) =>
      var normalized := NormalizeEntries(nfc, entries);
      return if normalized.Failure? then Failure(normalized.error) else Success(JObj(normalized.value));
    case SetOf(items) =>
      var normalized := NormalizeItems(nfc, items);
      return if normalized.Failure? then Failure(normalized.error)
             else Success(JArr(SortItems(normalized.value)));
    case ListOf(items) =>
      var normalized := NormalizeItems(nfc, items);
      return if normalized.Failure? then Failure(normalized.error) else Success(JArr(normalized.value));
    case Unsupported => return Failure(ValidationError);
  }

  method NormalizeEntries(nfc: string -> string, entries: seq<Entry>)
    returns (r: Result<map<string, Json>>)
    ensures r == NormalizedEntries(nfc, entries)
    decreases entries
  {
    hide Normalized;
    var normalized: map<string, Json> := map[];
    assert entries[..|entries|] == entries;
    for n := 0 to |entries|
      invariant NormalizedEntries(nfc, entries[..n]) == Success(normalized)
    {
      assert entries[..n + 1][..n] == entries[..n];
      if entries[n].key.OtherKey? {
        EntriesStuck(nfc, entries, n + 1);
        return Failure(ValidationError);
      }
      var key := nfc(entries[n].key.s);
      if key in normalized {
        EntriesStuck(nfc, entries, n + 1);
        return Failure(ValidationError);
      }
      assert entries[n].value < entries[n];
      var value := Normalize(nfc, entries[n].value);
      if value.Failure? {
        EntriesStuck(nfc, entries, n + 1);
        OneFailureCode(nfc, entries[n].value);
        return Failure(value.error);
      }
      normalized := normalized[key := value.value];
    }
    return Success(normalized);
  }

  method NormalizeItems(nfc: string -> string, items: seq<Value>) returns (r: Result<seq<Json>>)
    ensures r == NormalizedItems(nfc, items)
    decreases items
  {
    hide Normalized;
    var normalized: seq<Json> := [];
    assert items[..|items|] == items;
    for n := 0 to |items|
      invariant NormalizedItems(nfc, items[..n]) == Success(normalized)
    {
      assert items[..n + 1][..n] == items[..n];
      var item := Normalize(nfc, items[n]);
      if item.Failure? {
        ItemsStuck(nfc, items, n + 1);
        OneFailureCode(nfc, items[n]);
        return Failure(item.error);
      }
      normalized := normalized + [item.value];
    }
    return Success(normalized);
  }

  lemma {:induction false} EntriesStuck(nfc: string -> string, entries: seq<Entry>, n: nat)
    requires n <= |entries| && NormalizedEntries(nfc, entries[..n]) == Failure(ValidationError)
    ensures NormalizedEntries(nfc, entries) == Failure(ValidationError)
    decreases |entries| - n
  {
    hide Normalized;
    if n == |entries| {
      assert entries[..n] == entries;
    } else {
      assert entries[..n + 1][..n] == entries[..n];
      EntriesStuck(nfc, entries, n + 1);
    }
  }

  lemma {:induction false} ItemsStuck(nfc: string -> string, items: seq<Value>, n: nat)
    requires n <= |items| && NormalizedItems(nfc, items[..n]) == Failure(ValidationError)
    ensures NormalizedItems(nfc, items) == Failure(ValidationError)
    decreases |items| - n
  {
    hide Normalized;
    if n == |items| {
      assert items[..n] == items;
    } else {
      assert items[..n + 1][..n] == items[..n];
      ItemsStuck(nfc, items, n + 1);
    }
  }

  function CanonicalText(nfc: string -> string, v: Value): Result<string> {
    var r := Normalized(nfc, v);
    if r.Failure? then Failure(r.error) else Success(Print(r.value))
  }

  // ----- order does not matter --------------------------------------------------------------------

  /** The same value up to the order of mapping entries and of set items, at any depth. */
  ghost predicate Rearranged(v: Value, w: Value)
    decreases v
  {
    if v.Mapping? then w.Mapping? && SameEntries(v.entries, w.entries)
    else if v.SetOf? then w.SetOf? && SameSet(v.items, w.items)
    else if v.ListOf? then w.ListOf? && SameList(v.items, w.items)
    else v == w
  }

  ghost predicate SameList(a: seq<Value>, b: seq<Value>)
    decreases a
  {
    if a == [] then b == []
    else b != [] && Rearranged(a[0], b[0]) && SameList(a[1..], b[1..])
  }

  /** The first item of one is found somewhere in the other, and so are the rest in what remains. */
  ghost predicate SameSet(a: seq<Value>, b: seq<Value>)
    decreases a
  {
    if a == [] then b == []
    else exists k: nat :: k < |b| && Rearranged(a[0], b[k]) && SameSet(a[1..], b[..k] + b[k + 1..])
  }

  ghost predicate SameEntries(a: seq<Entry>, b: seq<Entry>)
    decreases a
  {
    if a == [] then b == []
    else
      assert a[0].value < a[0];
      exists k: nat :: k < |b| && a[0].key == b[k].key && Rearranged(a[0].value, b[k].value)
                       && SameEntries(a[1..], b[..k] + b[k + 1..])
  }

  /** An entry counts the same wherever it stands. */
  lemma {:induction false} EntryAnywhere(nfc: string -> string, left: seq<Entry>, e: Entry,
                                         right: seq<Entry>)
    ensures NormalizedEntries(nfc, left + [e] + right) ==
            AddEntry(nfc, NormalizedEntries(nfc, left + right), e.key, Normalized(nfc, e.value))
    decreases |right|
  {
    hide Normalized;
    if right == [] {
      assert left + [e] + right == left + [e] && left + right == left;
      assert (left + [e])[..|left|] == left;
    } else {
      var n := |right| - 1;
      EntryAnywhere(nfc, left, e, right[..n]);
      assert (left + [e] + right)[..|left| + 1 + n] == left + [e] + right[..n];
      assert (left + right)[..|left| + n] == left + right[..n];
      AddTwice(nfc, NormalizedEntries(nfc, left + right[..n]), e.key, Normalized(nfc, e.value),
               right[n].key, Normalized(nfc, right[n].value));
    }
  }

  lemma AddTwice(nfc: string -> string, done: Result<map<string, Json>>, k: Key, v: Result<Json>,
                 l: Key, w: Result<Json>)
    ensures AddEntry(nfc, AddEntry(nfc, done, k, v), l, w) == AddEntry(nfc, AddEntry(nfc, done, l, w), k, v)
  {
    if done.Success? && k.Text? && l.Text? && v.Success? && w.Success? && nfc(k.s) != nfc(l.s) {
      assert done.value[nfc(k.s) := v.value][nfc(l.s) := w.value]
             == done.value[nfc(l.s) := w.value][nfc(k.s) := v.value];
    }
  }

  /** All items normalize exactly if the others and `e` do, and then hold one more. */
  ghost predicate HoldsMore(all: Result<seq<Json>>, others: Result<seq<Json>>, e: Result<Json>) {
    && (all.Success? <==> others.Success? && e.Success?)
    && (all.Success? ==> multiset(all.value) == multiset(others.value) + multiset{e.value})
  }

  lemma {:induction false} ItemAnywhere(nfc: string -> string, left: seq<Value>, e: Value, right: seq<Value>)
    ensures HoldsMore(NormalizedItems(nfc, left + [e] + right), NormalizedItems(nfc, left + right),
                      Normalized(nfc, e))
    decreases |right|
  {
    if right == [] {
      LastItem(nfc, left, e);
      hide Normalized, NormalizedItems;
      assert left + [e] + right == left + [e] && left + right == left;
    } else {
      var n := |right| - 1;
      ItemAnywhere(nfc, left, e, right[..n]);
      LastItem(nfc, left + [e] + right[..n], right[n]);
      LastItem(nfc, left + right[..n], right[n]);
      LastOff(left + [e], right);
      LastOff(left, right);
      hide *;
      AddKeepsMore(NormalizedItems(nfc, left + [e] + right[..n]), NormalizedItems(nfc, left + right[..n]),
                   Normalized(nfc, e), Normalized(nfc, right[n]));
    }
  }

  lemma LastOff<T>(left: seq<T>, right: seq<T>)
    requires right != []
    ensures left + right == left + right[..|right| - 1] + [right[|right| - 1]]
  {}

  lemma AddKeepsMore(all: Result<seq<Json>>, others: Result<seq<Json>>, e: Result<Json>, last: Result<Json>)
    requires HoldsMore(all, others, e)
    ensures HoldsMore(AddItem(all, last), AddItem(others, last), e)
  {}

  lemma LastItem(nfc: string -> string, items: seq<Value>, last: Value)
    ensures NormalizedItems(nfc, items + [last]) ==
            AddItem(NormalizedItems(nfc, items), Normalized(nfc, last))
  {
    assert (items + [last])[..|items|] == items;
    hide Normalized;
  }

  /** Permuting mapping entries and sets at any depth gives the same tree or the same failure. */
  lemma {:induction false} RearrangedNormalizesAlike(nfc: string -> string, v: Value, w: Value)
    requires Rearranged(v, w)
    ensures Normalized(nfc, v) == Normalized(nfc, w)
    decreases v
  {
    hide Insert, SortItems, Rendered;
    if v.Mapping? {
      EntriesAlike(nfc, v.entries, w.entries);
    } else if v.SetOf? {
      SetsAlike(nfc, v.items, w.items);
      var a, b := NormalizedItems(nfc, v.items), NormalizedItems(nfc, w.items);
      OneItemsFailureCode(nfc, v.items);
      OneItemsFailureCode(nfc, w.items);
      if a.Success? {
        SortingForgetsOrder(a.value, b.value);
      }
    } else if v.ListOf? {
      ListsAlike(nfc, v.items, w.items);
    }
  }

  lemma {:induction false} EntriesAlike(nfc: string -> string, a: seq<Entry>, b: seq<Entry>)
    requires SameEntries(a, b)
    ensures NormalizedEntries(nfc, a) == NormalizedEntries(nfc, b)
    decreases a
  {
    if a != [] {
      hide SameEntries, Rearranged, Normalized;
      var k := EntryPartner(a, b);
      assert a[0].value < a[0];
      RearrangedNormalizesAlike(nfc, a[0].value, b[k].value);
      EntriesAlike(nfc, a[1..], b[..k] + b[k + 1..]);
      EntryAnywhere(nfc, a[..0], a[0], a[1..]);
      EntryAnywhere(nfc, b[..k], b[k], b[k + 1..]);
      hide *;
      Reassembled(a, 0);
      Reassembled(b, k);
    }
  }

  ghost predicate SameBag(x: Result<seq<Json>>, y: Result<seq<Json>>) {
    && (x.Success? <==> y.Success?)
    && (x.Success? ==> multiset(x.value) == multiset(y.value))
  }

  lemma MoreOfSame(x: Result<seq<Json>>, x': Result<seq<Json>>, y: Result<seq<Json>>,
                   y': Result<seq<Json>>, e: Result<Json>)
    requires HoldsMore(x, x', e) && HoldsMore(y, y', e) && SameBag(x', y')
    ensures SameBag(x, y)
  {}

  lemma {:induction false} SetsAlike(nfc: string -> string, a: seq<Value>, b: seq<Value>)
    requires SameSet(a, b)
    ensures SameBag(NormalizedItems(nfc, a), NormalizedItems(nfc, b))
    decreases a
  {
    if a != [] {
      hide SameSet, Rearranged, Normalized;
      var k := ItemPartner(a, b);
      RearrangedNormalizesAlike(nfc, a[0], b[k]);
      SetsAlike(nfc, a[1..], b[..k] + b[k + 1..]);
      ItemAnywhere(nfc, a[..0], a[0], a[1..]);
      ItemAnywhere(nfc, b[..k], b[k], b[k + 1..]);
      hide *;
      Reassembled(a, 0);
      Reassembled(b, k);
      MoreOfSame(NormalizedItems(nfc, a), NormalizedItems(nfc, a[1..]), NormalizedItems(nfc, b),
                 NormalizedItems(nfc, b[..k] + b[k + 1..]), Normalized(nfc, a[0]));
    }
  }

  lemma Reassembled<T>(s: seq<T>, k: nat)
    requires k < |s|
    ensures s[..k] + [s[k]] + s[k + 1..] == s
    ensures k == 0 ==> s[..k] + s[k + 1..] == s[1..]
  {}

  lemma ItemPartner(a: seq<Value>, b: seq<Value>) returns (k: nat)
    requires a != [] && SameSet(a, b)
    ensures k < |b| && Rearranged(a[0], b[k]) && SameSet(a[1..], b[..k] + b[k + 1..])
  {
    hide Rearranged;
    k :| k < |b| && Rearranged(a[0], b[k]) && SameSet(a[1..], b[..k] + b[k + 1..]);
  }

  lemma EntryPartner(a: seq<Entry>, b: seq<Entry>) returns (k: nat)
    requires a != [] && SameEntries(a, b)
    ensures k < |b| && a[0].key == b[k].key && Rearranged(a[0].value, b[k].value)
            && SameEntries(a[1..], b[..k] + b[k + 1..])
  {
    hide Rearranged;
    k :| k < |b| && a[0].key == b[k].key && Rearranged(a[0].value, b[k].value)
         && SameEntries(a[1..], b[..k] + b[k + 1..]);
  }

  lemma {:induction false} ListsAlike(nfc: string -> string, a: seq<Value>, b: seq<Value>)
    requires SameList(a, b)
    ensures NormalizedItems(nfc, a) == NormalizedItems(nfc, b)
    decreases a, 1
  {
    ListsMatch(a, b);
    ListPrefixesAlike(nfc, a, b, |a|);
    assert a[..|a|] == a && b[..|a|] == b;
  }

  lemma {:induction false} ListsMatch(a: seq<Value>, b: seq<Value>)
    requires SameList(a, b)
    ensures |a| == |b| && forall i | 0 <= i < |a| :: Rearranged(a[i], b[i])
    decreases a
  {
    hide Rearranged;
    if a != [] {
      ListsMatch(a[1..], b[1..]);
      forall i | 0 <= i < |a| ensures Rearranged(a[i], b[i]) {
        if i > 0 {
          assert a[i] == a[1..][i - 1] && b[i] == b[1..][i - 1];
        }
      }
    }
  }

  lemma {:induction false} ListPrefixesAlike(nfc: string -> string, a: seq<Value>, b: seq<Value>, n: nat)
    requires |a| == |b| && n <= |a| && forall i | 0 <= i < |a| :: Rearranged(a[i], b[i])
    ensures NormalizedItems(nfc, a[..n]) == NormalizedItems(nfc, b[..n])
    decreases a, 0, n
  {
    hide Rearranged, Normalized;
    if n > 0 {
      ListPrefixesAlike(nfc, a, b, n - 1);
      RearrangedNormalizesAlike(nfc, a[n - 1], b[n - 1]);
      assert a[..n][..n - 1] == a[..n - 1] && b[..n][..n - 1] == b[..n - 1];
    }
  }

  /** The text, or the failure code, does not depend on any enumeration order. */
  lemma TextForgetsOrder(nfc: string -> string, v: Value, w: Value)
    requires Rearranged(v, w)
    ensures CanonicalText(nfc, v) == CanonicalText(nfc, w)
  {
    RearrangedNormalizesAlike(nfc, v, w);
  }

  /** Values with one text have one normalized tree. */
  lemma TextDeterminesTree(nfc: string -> string, v: Value, w: Value)
    requires CanonicalText(nfc, v).Success?
    ensures CanonicalText(nfc, v) == CanonicalText(nfc, w) <==> Normalized(nfc, v) == Normalized(nfc, w)
  {
    hide Normalized, Print;
    if CanonicalText(nfc, v) == CanonicalText(nfc, w) {
      PrintIsInjective(Normalized(nfc, v).value, Normalized(nfc, w).value);
    }
  }

  // ----- sorted arrangements are unique -----------------------------------------------------------

  lemma PrecedesIsTotalOrder(a: Json, b: Json, c: Json)
    ensures Precedes(a, b) || Precedes(b, a)
    ensures Precedes(a, b) && Precedes(b, a) ==> a == b
    ensures Precedes(a, b) && Precedes(b, c) ==> Precedes(a, c)
  {
    hide Print;
    LessIsTotal(Print(a), Print(b));
    LessIsStrict(Print(a), Print(b));
    if Print(a) == Print(b) {
      PrintIsInjective(a, b);
    }
    if Less(Print(a), Print(b)) && Less(Print(b), Print(c)) {
      LessIsTransitive(Print(a), Print(b), Print(c));
    }
    hide Less;
  }

  lemma {:induction false} InsertKeepsSorted(x: Json, items: seq<Json>)
    requires SortedByText(items)
    ensures SortedByText(Insert(x, items))
  {
    hide Precedes;
    if items != [] {
      if Precedes(x, items[0]) {
        forall j | 0 <= j < |items| ensures Precedes(x, items[j]) {
          PrecedesIsTotalOrder(x, items[0], items[j]);
        }
      } else {
        PrecedesIsTotalOrder(x, items[0], x);
        InsertKeepsSorted(x, items[1..]);
        var rest := Insert(x, items[1..]);
        forall j | 0 <= j < |rest| ensures Precedes(items[0], rest[j]) {
          assert rest[j] in multiset(rest);
          assert rest[j] in multiset(items[1..]) || rest[j] == x;
        }
      }
    }
  }

  lemma {:induction false} SortItemsSorts(items: seq<Json>)
    ensures SortedByText(SortItems(items))
  {
    if items != [] {
      SortItemsSorts(items[..|items| - 1]);
      InsertKeepsSorted(items[|items| - 1], SortItems(items[..|items| - 1]));
    }
  }

  lemma HeadsAgree(a: seq<Json>, b: seq<Json>)
    requires SortedByText(a) && SortedByText(b) && a != [] && b != [] && a[0] in b && b[0] in a
    ensures a[0] == b[0]
  {
    hide Precedes;
    var i :| 0 <= i < |b| && b[i] == a[0];
    var j :| 0 <= j < |a| && a[j] == b[0];
    PrecedesIsTotalOrder(a[0], b[0], a[0]);
  }

  lemma {:induction false} SortedIsUnique(a: seq<Json>, b: seq<Json>)
    requires SortedByText(a) && SortedByText(b) && multiset(a) == multiset(b)
    ensures a == b
    decreases |a|
  {
    hide Precedes;
    assert |a| == |multiset(a)| == |multiset(b)| == |b|;
    if a != [] {
      assert a[0] in multiset(b) && b[0] in multiset(a);
      HeadsAgree(a, b);
      assert a == [a[0]] + a[1..] && b == [b[0]] + b[1..];
      assert multiset(a[1..]) == multiset(a) - multiset{a[0]};
      SortedIsUnique(a[1..], b[1..]);
    }
  }

  lemma SortingForgetsOrder(a: seq<Json>, b: seq<Json>)
    requires multiset(a) == multiset(b)
    ensures SortItems(a) == SortItems(b)
  {
    SortItemsSorts(a);
    SortItemsSorts(b);
    SortedIsUnique(SortItems(a), SortItems(b));
  }
}
