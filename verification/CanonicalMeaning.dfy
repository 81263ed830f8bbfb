/** What a canonical tree says of the value it was made from. */
module CanonicalMeaning {
  import opened Wrappers
  import opened Decimals
  import opened JsonText
  import opened Canonical
  import opened CanonicalLaws

  /** The tree holds the value: scalars as they are, strings in normal form, decimals as a text that reads
      as their value, mappings entry by entry under their normalized keys, lists item by item in order, and
      sets as all their items, each as often as it occurs, sorted by text. */
  ghost predicate Represents(nfc: string -> string, v: Value, j: Json)
    decreases v
  {
    match v
    case Null => j == JNull
    case Boolean(b) => j == JBool(b)
    case Integer(n) => j == JInt(n)
    case Str(s) => j == JStr(nfc(s))
    case Dec(d) => d.Finite? && j.JStr? && Reads(j.s, d)
    case ListOf(items) =>
      j.JArr? && |j.items| == |items| && forall i | 0 <= i < |items| :: Represents(nfc, items[i], j.items[i])
    case SetOf(items) =>
      && j.JArr? && SortedByText(j.items)
      && exists made: seq<Json> ::
           && |made| == |items| && multiset(made) == multiset(j.items)
           && forall i | 0 <= i < |items| :: Represents(nfc, items[i], made[i])
    case Mapping(entries) =>
      && j.JObj?
      && (forall i | 0 <= i < |entries| :: Holds(nfc, entries[i], j.members))
      && (forall k | k in j.members :: exists i :: 0 <= i < |entries| && Names(nfc, entries[i], k))
      && DistinctNames(nfc, entries)
    case Unsupported => false
  }

  /** The text reads as the value of the decimal, and has no zero too many. */
  ghost predicate Reads(text: string, d: Decimal)
    requires d.Finite?
  {
    var n := ParseDecimal(text);
    n.Some? && Equal(n.value, Decimals.Value(d)) && (Kept(d) ==> Plain(text))
  }

  predicate Names(nfc: string -> string, e: Entry, k: string) {
    e.key.Text? && nfc(e.key.s) == k
  }

  ghost predicate Holds(nfc: string -> string, e: Entry, members: map<string, Json>)
    decreases e
  {
    e.key.Text? && nfc(e.key.s) in members && Represents(nfc, e.value, members[nfc(e.key.s)])
  }

  /** What normalization makes of a value represents it. */
  lemma {:induction false} NormalizedRepresents(nfc: string -> string, v: Value)
    requires Normalized(nfc, v).Success?
    ensures Represents(nfc, v, Normalized(nfc, v).value)
    decreases v
  {
    hide SortItems, Insert, NormalizedItems, NormalizedEntries, SortedByText;
    var j := Normalized(nfc, v).value;
    match v
    case Dec(d) =>
      RenderedParsesBack(d);
      if Kept(d) {
        RenderedIsPlain(d);
      }
    case ListOf(items) => ItemsRepresent(nfc, items);
    case SetOf(items) =>
      ItemsRepresent(nfc, items);
      var made := NormalizedItems(nfc, items).value;
      SortItemsSorts(made);
      assert multiset(made) == multiset(j.items);
    case Mapping(entries) =>
      EntriesDecided(nfc, entries);
      forall i | 0 <= i < |entries| ensures Holds(nfc, entries[i], j.members) {
        EntryRepresents(nfc, entries[i], j.members);
      }
    case _ =>
  }

  lemma {:induction false} ItemsRepresent(nfc: string -> string, items: seq<Value>)
    requires NormalizedItems(nfc, items).Success?
    ensures var made := NormalizedItems(nfc, items).value;
            |made| == |items| && forall i | 0 <= i < |items| :: Represents(nfc, items[i], made[i])
    decreases items
  {
    ItemsDecided(nfc, items);
    hide Normalized, NormalizedItems, Represents;
    forall i | 0 <= i < |items| ensures Represents(nfc, items[i], NormalizedItems(nfc, items).value[i]) {
      NormalizedRepresents(nfc, items[i]);
    }
  }

  lemma {:induction false} EntryRepresents(nfc: string -> string, e: Entry, members: map<string, Json>)
    requires e.key.Text? && nfc(e.key.s) in members
    requires Normalized(nfc, e.value) == Success(members[nfc(e.key.s)])
    ensures Holds(nfc, e, members)
    decreases e
  {
    NormalizedRepresents(nfc, e.value);
  }
}
