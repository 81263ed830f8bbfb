/** Which values the canonical profile accepts, and why normalizing again changes nothing. */
module CanonicalLaws {
  import opened Wrappers
  import opened Ordering
  import opened Decimals
  import opened JsonText
  import opened Canonical

  // ----- which values are accepted ----------------------------------------------------------------

  ghost predicate Representable(nfc: string -> string, v: Value)
    decreases v
  {
    match v
    case Dec(d) => d.Finite?
    case Mapping(entries) =>
      && DistinctNames(nfc, entries)
      && (forall i | 0 <= i < |entries| :: entries[i].key.Text?)
      && (forall i | 0 <= i < |entries| :: AcceptsEntry(nfc, entries[i]))
    case SetOf(items) => forall i | 0 <= i < |items| :: Representable(nfc, items[i])
    case ListOf(items) => forall i | 0 <= i < |items| :: Representable(nfc, items[i])
    case Unsupported => false
    case _ => true
  }

  ghost predicate AcceptsEntry(nfc: string -> string, e: Entry)
    decreases e
  {
    Representable(nfc, e.value)
  }

  /** No two string keys become equal. */
  ghost predicate DistinctNames(nfc: string -> string, entries: seq<Entry>) {
    forall i, j | 0 <= i < j < |entries| && entries[i].key.Text? && entries[j].key.Text? ::
      nfc(entries[i].key.s) != nfc(entries[j].key.s)
  }

  /** What a mapping becomes: the normalized keys, each with the normalized value of its entry. */
  ghost predicate Describes(nfc: string -> string, entries: seq<Entry>, members: map<string, Json>) {
    && (forall i | 0 <= i < |entries| ::
          && entries[i].key.Text? && nfc(entries[i].key.s) in members
          && Normalized(nfc, entries[i].value) == Success(members[nfc(entries[i].key.s)]))
    && (forall k | k in members :: exists i :: 0 <= i < |entries| && entries[i].key.Text?
                                               && nfc(entries[i].key.s) == k)
  }

  /** A mapping succeeds exactly when its keys are strings that stay distinct and its values
      succeed, and then holds exactly its entries. */
  lemma {:induction false} EntriesDecided(nfc: string -> string, entries: seq<Entry>)
    ensures NormalizedEntries(nfc, entries).Success? <==>
            && DistinctNames(nfc, entries)
            && (forall i | 0 <= i < |entries| ::
                  entries[i].key.Text? && Normalized(nfc, entries[i].value).Success?)
    ensures NormalizedEntries(nfc, entries).Success? ==>
              Describes(nfc, entries, NormalizedEntries(nfc, entries).value)
  {
    hide Normalized;
    if entries != [] {
      var n := |entries| - 1;
      var front, last := entries[..n], entries[n];
      EntriesDecided(nfc, front);
      forall i | 0 <= i < n ensures front[i] == entries[i] {}
      var done := NormalizedEntries(nfc, front);
      if NormalizedEntries(nfc, entries).Success? {
        EntryDescribes(nfc, front, last, done.value);
        assert entries == front + [last];
      } else if done.Success? && last.key.Text? && nfc(last.key.s) in done.value {
        var i :| 0 <= i < n && front[i].key.Text? && nfc(front[i].key.s) == nfc(last.key.s);
        assert entries[i] == front[i] && !DistinctNames(nfc, entries);
      }
    }
  }

  lemma EntryDescribes(nfc: string -> string, front: seq<Entry>, last: Entry, members: map<string, Json>)
    requires Describes(nfc, front, members) && DistinctNames(nfc, front)
    requires last.key.Text? && nfc(last.key.s) !in members && Normalized(nfc, last.value).Success?
    ensures DistinctNames(nfc, front + [last])
    ensures Describes(nfc, front + [last], members[nfc(last.key.s) := Normalized(nfc, last.value).value])
  {
    hide Normalized;
    var entries := front + [last];
    var longer := members[nfc(last.key.s) := Normalized(nfc, last.value).value];
    forall k | k in longer
      ensures exists i :: 0 <= i < |entries| && entries[i].key.Text? && nfc(entries[i].key.s) == k
    {
      if k in members {
        var i :| 0 <= i < |front| && front[i].key.Text? && nfc(front[i].key.s) == k;
        assert entries[i] == front[i];
      } else {
        assert entries[|front|] == last;
      }
    }
  }

  lemma {:induction false} ItemsDecided(nfc: string -> string, items: seq<Value>)
    ensures var r := NormalizedItems(nfc, items);
            && (r.Success? <==> forall i | 0 <= i < |items| :: Normalized(nfc, items[i]).Success?)
            && (r.Success? ==>
                  && |r.value| == |items|
                  && forall i | 0 <= i < |items| :: Normalized(nfc, items[i]) == Success(r.value[i]))
  {
    hide Normalized;
    if items != [] {
      var n := |items| - 1;
      ItemsDecided(nfc, items[..n]);
      forall i | 0 <= i < n ensures items[..n][i] == items[i] {}
    }
  }

  /** Exactly these values have a canonical form. */
  lemma {:induction false} NormalizesIffRepresentable(nfc: string -> string, v: Value)
    ensures Normalized(nfc, v).Success? <==> Representable(nfc, v)
    decreases v
  {
    match v
    case Mapping(entries) =>
      EntriesDecided(nfc, entries);
      forall i | 0 <= i < |entries|
        ensures AcceptsEntry(nfc, entries[i]) <==> Normalized(nfc, entries[i].value).Success?
      {
        EntryNormalizes(nfc, entries[i]);
      }
    case SetOf(items) =>
      ItemsDecided(nfc, items);
      forall i | 0 <= i < |items|
        ensures Representable(nfc, items[i]) <==> Normalized(nfc, items[i]).Success?
      {
        NormalizesIffRepresentable(nfc, items[i]);
      }
    case ListOf(items) =>
      ItemsDecided(nfc, items);
      forall i | 0 <= i < |items|
        ensures Representable(nfc, items[i]) <==> Normalized(nfc, items[i]).Success?
      {
        NormalizesIffRepresentable(nfc, items[i]);
      }
    case _ =>
  }

  lemma {:induction false} EntryNormalizes(nfc: string -> string, e: Entry)
    ensures AcceptsEntry(nfc, e) <==> Normalized(nfc, e.value).Success?
    decreases e
  {
    NormalizesIffRepresentable(nfc, e.value);
  }

  // ----- normalizing again ------------------------------------------------------------------------

  /** A normalized tree as a value to normalize. */
  function Embedded(j: Json): Value
    decreases j, 1
  {
    match j
    case JNull => Null
    case JBool(b) => Boolean(b)
    case JInt(n) => Integer(n)
    case JStr(s) => Str(s)
    case JArr(items) => ListOf(EmbeddedItems(items))
    case JObj(members) => Mapping(EmbeddedMembers(j, SortedKeys(members.Keys)))
  }

  function EmbeddedItems(items: seq<Json>): (r: seq<Value>)
    ensures |r| == |items|
    decreases items, 0
  {
    seq(|items|, i requires 0 <= i < |items| => Embedded(items[i]))
  }

  function EmbeddedMembers(j: Json, keys: seq<string>): (r: seq<Entry>)
    requires j.JObj? && forall k | k in keys :: k in j.members
    ensures |r| == |keys|
    decreases j, 0
  {
    seq(|keys|, i requires 0 <= i < |keys| => Entry(Text(keys[i]), Embedded(j.members[keys[i]])))
  }

  /** Every string and every key is in normal form. */
  ghost predicate InNfc(nfc: string -> string, j: Json)
    decreases j
  {
    match j
    case JStr(s) => nfc(s) == s
    case JArr(items) => forall i | 0 <= i < |items| :: InNfc(nfc, items[i])
    case JObj(members) => forall k | k in members :: nfc(k) == k && InNfc(nfc, members[k])
    case _ => true
  }

  lemma CharsAreAscii(digits: seq<Digit>)
    ensures Ascii(Chars(digits))
  {}

  lemma RenderedIsAscii(d: Decimal)
    requires Rendered(d).Success?
    ensures Ascii(Rendered(d).value)
  {
    var (digits, exponent) := Stripped(d.digits, d.exponent);
    var point := |digits| + exponent;
    CharsAreAscii(digits);
    CharsAreAscii(Zeros(if exponent >= 0 then exponent else if point <= 0 then -point else 0));
    hide Chars, Stripped, Zeros;
  }

  lemma {:induction false} NormalizedIsNfc(nfc: string -> string, v: Value)
    requires IsNfc(nfc) && Normalized(nfc, v).Success?
    ensures InNfc(nfc, Normalized(nfc, v).value)
    decreases v
  {
    hide Insert, SortItems;
    match v
    case Dec(d) => RenderedIsAscii(d);
    case Mapping(entries) =>
      EntriesDecided(nfc, entries);
      var members := NormalizedEntries(nfc, entries).value;
      forall k | k in members ensures nfc(k) == k && InNfc(nfc, members[k]) {
        var i :| 0 <= i < |entries| && entries[i].key.Text? && nfc(entries[i].key.s) == k;
        assert entries[i].value < entries[i];
        NormalizedIsNfc(nfc, entries[i].value);
      }
    case SetOf(items) =>
      ItemsAreNfc(nfc, items);
      var r := NormalizedItems(nfc, items).value;
      var sorted := SortItems(r);
      forall i | 0 <= i < |sorted| ensures InNfc(nfc, sorted[i]) {
        assert sorted[i] in multiset(sorted);
        assert sorted[i] in r;
      }
    case ListOf(items) => ItemsAreNfc(nfc, items);
    case _ =>
  }

  lemma {:induction false} ItemsAreNfc(nfc: string -> string, items: seq<Value>)
    requires IsNfc(nfc) && NormalizedItems(nfc, items).Success?
    ensures forall i | 0 <= i < |NormalizedItems(nfc, items).value| ::
              InNfc(nfc, NormalizedItems(nfc, items).value[i])
    decreases items
  {
    ItemsDecided(nfc, items);
    hide Normalized, NormalizedItems, InNfc;
    forall i | 0 <= i < |items| ensures InNfc(nfc, NormalizedItems(nfc, items).value[i]) {
      NormalizedIsNfc(nfc, items[i]);
    }
  }

  /** A tree in normal form is its own normalization. */
  lemma {:induction false} NfcIsFixed(nfc: string -> string, j: Json)
    requires InNfc(nfc, j)
    ensures Normalized(nfc, Embedded(j)) == Success(j)
    decreases j, 1
  {
    hide SortedKeys, Increasing, NormalizedItems, NormalizedEntries, EmbeddedItems, EmbeddedMembers;
    if j.JArr? {
      ItemsAreFixed(nfc, j.items, |j.items|);
      assert j.items[..|j.items|] == j.items;
    } else if j.JObj? {
      MembersAreFixed(nfc, j, SortedKeys(j.members.Keys));
      assert j.members == map k | k in SortedKeys(j.members.Keys) :: j.members[k];
    }
  }

  lemma {:induction false} ItemsAreFixed(nfc: string -> string, items: seq<Json>, n: nat)
    requires n <= |items| && forall i | 0 <= i < |items| :: InNfc(nfc, items[i])
    ensures NormalizedItems(nfc, EmbeddedItems(items[..n])) == Success(items[..n])
    decreases items, 0, n
  {
    hide InNfc, Normalized, Embedded;
    if n > 0 {
      ItemsAreFixed(nfc, items, n - 1);
      NfcIsFixed(nfc, items[n - 1]);
      assert EmbeddedItems(items[..n])[..n - 1] == EmbeddedItems(items[..n - 1]);
      assert items[..n] == items[..n - 1] + [items[n - 1]];
    }
  }

  lemma {:induction false} MembersAreFixed(nfc: string -> string, j: Json, keys: seq<string>)
    requires j.JObj? && Increasing(keys) && forall k | k in keys :: k in j.members
    requires forall k | k in j.members :: nfc(k) == k && InNfc(nfc, j.members[k])
    ensures NormalizedEntries(nfc, EmbeddedMembers(j, keys)) == Success(map k | k in keys :: j.members[k])
    decreases j, 0, |keys|
  {
    hide InNfc, Normalized, Embedded, Less;
    if keys != [] {
      var n := |keys| - 1;
      MembersAreFixed(nfc, j, keys[..n]);
      NfcIsFixed(nfc, j.members[keys[n]]);
      LastIsNew(keys);
      LastEmbedded(j, keys);
      hide EmbeddedMembers, Increasing;
      assert keys == keys[..n] + [keys[n]];
      assert (map k | k in keys :: j.members[k])
             == (map k | k in keys[..n] :: j.members[k])[keys[n] := j.members[keys[n]]];
    }
  }

  lemma LastEmbedded(j: Json, keys: seq<string>)
    requires j.JObj? && keys != [] && forall k | k in keys :: k in j.members
    ensures var n := |keys| - 1;
            && EmbeddedMembers(j, keys)[..n] == EmbeddedMembers(j, keys[..n])
            && EmbeddedMembers(j, keys)[n] == Entry(Text(keys[n]), Embedded(j.members[keys[n]]))
  {
    hide Embedded;
  }

  lemma LastIsNew(keys: seq<string>)
    requires Increasing(keys) && keys != []
    ensures keys[|keys| - 1] !in keys[..|keys| - 1]
  {
    forall i | 0 <= i < |keys| - 1 ensures keys[i] != keys[|keys| - 1] {
      LessIsStrict(keys[i], keys[|keys| - 1]);
    }
  }

  /** Normalizing what normalization produced changes nothing, so its text is its tree's print. */
  lemma NormalizationIsIdempotent(nfc: string -> string, v: Value)
    requires IsNfc(nfc) && Normalized(nfc, v).Success?
    ensures Normalized(nfc, Embedded(Normalized(nfc, v).value)) == Normalized(nfc, v)
    ensures CanonicalText(nfc, Embedded(Normalized(nfc, v).value)) == CanonicalText(nfc, v)
  {
    hide Normalized, Embedded, InNfc;
    NormalizedIsNfc(nfc, v);
    NfcIsFixed(nfc, Normalized(nfc, v).value);
  }

  /** The text by which set items are sorted is the canonical text of the items. */
  lemma SortKeyIsCanonicalText(nfc: string -> string, items: seq<Value>, i: nat)
    requires IsNfc(nfc) && NormalizedItems(nfc, items).Success? && i < |items|
    ensures |NormalizedItems(nfc, items).value| == |items|
    ensures CanonicalText(nfc, Embedded(NormalizedItems(nfc, items).value[i])) ==
            Success(Print(NormalizedItems(nfc, items).value[i]))
  {
    ItemsDecided(nfc, items);
    hide Normalized, NormalizedItems, Embedded;
    NormalizationIsIdempotent(nfc, items[i]);
  }

  /** Under an injective digest of the text, two values share their identity exactly when they
      share their normalized tree. */
  lemma DigestDeterminesTree(nfc: string -> string, digest: string -> string, v: Value, w: Value)
    requires forall s, t :: digest(s) == digest(t) ==> s == t
    requires CanonicalText(nfc, v).Success? && CanonicalText(nfc, w).Success?
    ensures digest(CanonicalText(nfc, v).value) == digest(CanonicalText(nfc, w).value) <==>
            Normalized(nfc, v) == Normalized(nfc, w)
  {
    TextDeterminesTree(nfc, v, w);
    hide Normalized;
  }
}
