/** JSON text: the encoder's output, and a reader for sections 2 to 7 of RFC 8259. */
module JsonText {
  import opened Wrappers
  import opened Ordering
  import opened Decimals

  /** Normalized trees.  A number is an integer. */
  datatype Json =
    | JNull
    | JBool(b: bool)
    | JInt(n: int)
    | JStr(s: string)
    | JArr(items: seq<Json>)
    | JObj(members: map<string, Json>)

  // ----- the encoder ------------------------------------------------------------------------------

  function NatDigits(n: nat): (digits: seq<Digit>)
    ensures digits != [] && (digits[0] == 0 ==> n == 0 && digits == [0])
    ensures Coefficient(digits) == n
  {
    if n < 10 then [n]
    else
      var front, last: Digit := NatDigits(n / 10), n % 10;
      assert (front + [last])[..|front|] == front;
      front + [last]
  }

  function IntText(n: int): string {
    if n < 0 then "-" + Chars(NatDigits(-n)) else Chars(NatDigits(n))
  }

  function HexDigit(n: nat): char
    requires n < 16
  {
    if n < 10 then '0' + n as char else 'a' + (n - 10) as char
  }

  /** What `json.dumps(ensure_ascii=False)` writes for one character of a string. */
  function Escape(c: char): string {
    if c == '"' then "\\\""
    else if c == '\\' then "\\\\"
    else if c == '\n' then "\\n"
    else if c == '\r' then "\\r"
    else if c == '\t' then "\\t"
    else if c as int == 12 then "\\f"
    else if c as int == 8 then "\\b"
    else if c as int < 32 then "\\u00" + [HexDigit(c as int / 16), HexDigit(c as int % 16)]
    else [c]
  }

  function Escaped(s: string): string {
    if s == "" then "" else Escape(s[0]) + Escaped(s[1..])
  }

  function Quoted(s: string): string {
    "\"" + Escaped(s) + "\""
  }

  /** No insignificant white space, members in the order of their keys. */
  function Print(j: Json): string {
    match j
    case JNull => "null"
    case JBool(b) => if b then "true" else "false"
    case JInt(n) => IntText(n)
    case JStr(s) => Quoted(s)
    case JArr(items) => "[" + PrintItems(items) + "]"
    case JObj(members) => "{" + PrintMembers(j, SortedKeys(members.Keys)) + "}"
  }

  function PrintItems(items: seq<Json>): string {
    if items == [] then ""
    else if |items| == 1 then Print(items[0])
    else Print(items[0]) + "," + PrintItems(items[1..])
  }

  function PrintMembers(j: Json, keys: seq<string>): string
    requires j.JObj? && forall k | k in keys :: k in j.members
    decreases j, |keys|
  {
    if keys == [] then ""
    else
      var member := Quoted(keys[0]) + ":" + Print(j.members[keys[0]]);
      if |keys| == 1 then member else member + "," + PrintMembers(j, keys[1..])
  }

  // ----- the reader -------------------------------------------------------------------------------

  function SkipSpace(t: string): (r: string)
    ensures |r| <= |t|
  {
    if t != "" && t[0] in {' ', '\t', '\n', '\r'} then SkipSpace(t[1..]) else t
  }

  predicate Starts(t: string, c: char) {
    t != "" && t[0] == c
  }

  function HexValue(c: char): Option<nat> {
    if '0' <= c <= '9' then Some(c as int - '0' as int)
    else if 'a' <= c <= 'f' then Some(c as int - 'a' as int + 10)
    else if 'A' <= c <= 'F' then Some(c as int - 'A' as int + 10)
    else None
  }

  /** Four hexadecimal digits. */
  function CodeUnit(t: string): (r: Option<nat>)
    ensures r.Some? ==> |t| >= 4 && r.value < 0x1_0000
  {
    if |t| < 4 then None
    else
      var a, b, c, d := HexValue(t[0]), HexValue(t[1]), HexValue(t[2]), HexValue(t[3]);
      if a.Some? && b.Some? && c.Some? && d.Some? then
        Some(((a.value * 16 + b.value) * 16 + c.value) * 16 + d.value)
      else None
  }

  /** What follows a backslash: one character, or a pair of surrogate escapes. */
  function Unescape(t: string): (r: Option<(char, string)>)
    ensures r.Some? ==> |r.value.1| < |t|
  {
    if t == "" then None
    else if t[0] == '"' || t[0] == '\\' || t[0] == '/' then Some((t[0], t[1..]))
    else if t[0] == 'b' then Some((8 as char, t[1..]))
    else if t[0] == 'f' then Some((12 as char, t[1..]))
    else if t[0] == 'n' then Some(('\n', t[1..]))
    else if t[0] == 'r' then Some(('\r', t[1..]))
    else if t[0] == 't' then Some(('\t', t[1..]))
    else if t[0] == 'u' then
      var unit := CodeUnit(t[1..]);
      if unit.None? then None
      else if unit.value < 0xD800 || 0xE000 <= unit.value then Some((unit.value as char, t[5..]))
      else if unit.value < 0xDC00 && StartsWith(t[5..], "\\u") then
        var low := CodeUnit(t[7..]);
        if low.Some? && 0xDC00 <= low.value < 0xE000 then
          Some(((0x1_0000 + (unit.value - 0xD800) * 0x400 + (low.value - 0xDC00)) as char, t[11..]))
        else None
      else None
    else None
  }

  /** The rest of a string, after its opening quotation mark. */
  function ParseChars(t: string): (r: Option<(string, string)>)
    ensures r.Some? ==> |r.value.1| < |t|
    decreases |t|
  {
    if t == "" || t[0] as int < 32 then None
    else if t[0] == '"' then Some(("", t[1..]))
    else
      var first := if t[0] == '\\' then Unescape(t[1..]) else Some((t[0], t[1..]));
      if first.None? then None
      else
        var more := ParseChars(first.value.1);
        if more.None? then None
        else Some(([first.value.0] + more.value.0, more.value.1))
  }

  function CountDigits(t: string): (n: nat)
    ensures n <= |t| && AllDigits(t[..n])
    ensures n < |t| ==> !IsDigit(t[n])
  {
    if t != "" && IsDigit(t[0]) then
      var n := 1 + CountDigits(t[1..]);
      assert t[..n] == [t[0]] + t[1..][..n - 1];
      n
    else 0
  }

  function ParseNat(t: string): (r: Option<(int, string)>)
    ensures r.Some? ==> |r.value.1| < |t|
  {
    var n := CountDigits(t);
    if n == 0 || (n > 1 && t[0] == '0') then None
    else if n < |t| && t[n] in {'.', 'e', 'E'} then None
    else Some((Coefficient(DigitsOf(t[..n])), t[n..]))
  }

  /** An integer; a fraction or an exponent is a number, but not one of these trees. */
  function ParseInt(t: string): (r: Option<(int, string)>)
    ensures r.Some? ==> |r.value.1| < |t|
  {
    if Starts(t, '-') then
      var r := ParseNat(t[1..]);
      if r.None? then None else Some((-r.value.0, r.value.1))
    else ParseNat(t)
  }

  function ParseValue(text: string): (r: Option<(Json, string)>)
    ensures r.Some? ==> |r.value.1| < |text|
    decreases |text|, 0
  {
    var t := SkipSpace(text);
    if t == "" then None
    else if t[0] == '"' then
      var r := ParseChars(t[1..]);
      if r.None? then None else Some((JStr(r.value.0), r.value.1))
    else if t[0] == '[' then
      if Starts(SkipSpace(t[1..]), ']') then Some((JArr([]), SkipSpace(t[1..])[1..]))
      else
        var r := ParseItems(t[1..]);
        if r.None? then None else Some((JArr(r.value.0), r.value.1))
    else if t[0] == '{' then
      if Starts(SkipSpace(t[1..]), '}') then Some((JObj(map[]), SkipSpace(t[1..])[1..]))
      else
        var r := ParseMembers(t[1..]);
        if r.None? then None else Some((JObj(r.value.0), r.value.1))
    else if StartsWith(t, "null") then Some((JNull, t[4..]))
    else if StartsWith(t, "true") then Some((JBool(true), t[4..]))
    else if StartsWith(t, "false") then Some((JBool(false), t[5..]))
    else
      var r := ParseInt(t);
      if r.None? then None else Some((JInt(r.value.0), r.value.1))
  }

  /** One value or more, up to the closing bracket. */
  function ParseItems(text: string): (r: Option<(seq<Json>, string)>)
    ensures r.Some? ==> |r.value.1| < |text|
    decreases |text|, 1
  {
    var first := ParseValue(text);
    if first.None? then None
    else
      var t := SkipSpace(first.value.1);
      if Starts(t, ']') then Some(([first.value.0], t[1..]))
      else if Starts(t, ',') then
        var more := ParseItems(t[1..]);
        if more.None? then None else Some(([first.value.0] + more.value.0, more.value.1))
      else None
  }

  /** One member or more, up to the closing brace; of two members with one name the last counts. */
  function ParseMembers(text: string): (r: Option<(map<string, Json>, string)>)
    ensures r.Some? ==> |r.value.1| < |text|
    decreases |text|, 1
  {
    var quoted := SkipSpace(text);
    var name := if Starts(quoted, '"') then ParseChars(quoted[1..]) else None;
    if name.None? || !Starts(SkipSpace(name.value.1), ':') then None
    else
      var value := ParseValue(SkipSpace(name.value.1)[1..]);
      if value.None? then None
      else
        var t := SkipSpace(value.value.1);
        if Starts(t, '}') then Some((map[name.value.0 := value.value.0], t[1..]))
        else if Starts(t, ',') then
          var more := ParseMembers(t[1..]);
          if more.None? then None
          else Some((map[name.value.0 := value.value.0] + more.value.0, more.value.1))
        else None
  }

  /** A whole text. */
  function Parse(text: string): Option<Json> {
    var r := ParseValue(text);
    if r.Some? && SkipSpace(r.value.1) == "" then Some(r.value.0) else None
  }

  // ----- reading back what was printed ------------------------------------------------------------

  /** What can follow a printed value. */
  predicate Ends(rest: string) {
    rest == "" || rest[0] in {',', ']', '}'}
  }

  lemma EscapeUnescapes(c: char, rest: string)
    ensures |Escape(c)| >= 1 && Escape(c)[0] as int >= 32
    ensures Escape(c) == [c] ==> c != '"' && c != '\\'
    ensures Escape(c) != [c] ==>
              Escape(c)[0] == '\\' && Unescape(Escape(c)[1..] + rest) == Some((c, rest))
  {
    var t := Escape(c)[1..] + rest;
    if c as int < 32 && c !in {'\n', '\r', '\t'} && c as int != 12 && c as int != 8 {
      HexPair(c as int, rest);
      assert Escape(c)[1..] == "u00" + [HexDigit(c as int / 16), HexDigit(c as int % 16)];
    } else if Escape(c) != [c] {
      assert t[1..] == rest;
    }
  }

  lemma HexPair(n: nat, rest: string)
    requires n < 32
    ensures var t := "u00" + [HexDigit(n / 16), HexDigit(n % 16)] + rest;
            Unescape(t) == Some((n as char, rest))
  {
    var t := "u00" + [HexDigit(n / 16), HexDigit(n % 16)] + rest;
    assert t[1..][0] == '0' && t[1..][1] == '0';
    assert t[1..][2] == HexDigit(n / 16) && t[1..][3] == HexDigit(n % 16);
    assert HexValue('0') == Some(0);
    assert HexValue(HexDigit(n / 16)) == Some(n / 16) && HexValue(HexDigit(n % 16)) == Some(n % 16);
    assert CodeUnit(t[1..]) == Some(n);
    assert t[5..] == rest;
  }

  lemma {:induction false} QuotedParses(s: string, rest: string)
    ensures ParseChars(Escaped(s) + "\"" + rest) == Some((s, rest))
  {
    var t := Escaped(s) + "\"" + rest;
    if s == "" {
      assert t == "\"" + rest && t[1..] == rest;
    } else {
      var more := Escaped(s[1..]) + "\"" + rest;
      QuotedParses(s[1..], rest);
      EscapeUnescapes(s[0], more);
      hide Escape, Unescape, Escaped;
      CharParses(s[0], more);
      assert t == Escape(s[0]) + more by { EscapedHead(s, rest); }
      assert [s[0]] + s[1..] == s;
    }
  }

  lemma EscapedHead(s: string, rest: string)
    requires s != ""
    ensures Escaped(s) + "\"" + rest == Escape(s[0]) + (Escaped(s[1..]) + "\"" + rest)
  {
    hide Escape;
  }

  lemma CharParses(c: char, more: string)
    requires ParseChars(more).Some?
    ensures ParseChars(Escape(c) + more) ==
            Some(([c] + ParseChars(more).value.0, ParseChars(more).value.1))
  {
    EscapeUnescapes(c, more);
    var t := Escape(c) + more;
    assert t[0] == Escape(c)[0] && t[1..] == Escape(c)[1..] + more;
    assert Escape(c) == [c] ==> t[1..] == more;
    hide Escape, Unescape;
  }

  lemma {:induction false} CountsDigits(text: string, rest: string)
    requires AllDigits(text) && (rest != "" ==> !IsDigit(rest[0]))
    ensures CountDigits(text + rest) == |text|
  {
    if text == "" {
      assert text + rest == rest;
    } else {
      CountsDigits(text[1..], rest);
      assert (text + rest)[1..] == text[1..] + rest;
    }
  }

  lemma DigitsParse(digits: seq<Digit>, rest: string)
    requires Ends(rest) && digits != [] && (digits[0] == 0 ==> |digits| == 1)
    ensures ParseNat(Chars(digits) + rest) == Some((Coefficient(digits), rest))
  {
    var text := Chars(digits);
    DigitsOfChars(digits);
    CountsDigits(text, rest);
    var t := text + rest;
    assert t[0] == text[0] == DigitChar(digits[0]);
    hide Chars, NatDigits, Coefficient, DigitsOf, CountDigits, AllDigits;
    assert t[..|text|] == text && t[|text|..] == rest;
  }

  lemma IntParses(n: int, rest: string)
    requires Ends(rest)
    ensures ParseInt(IntText(n) + rest) == Some((n, rest))
    ensures IntText(n) != "" && (IntText(n)[0] == '-' || IsDigit(IntText(n)[0]))
  {
    var digits := NatDigits(if n < 0 then -n else n);
    DigitsParse(digits, rest);
    DigitsOfChars(digits);
    var text := Chars(digits);
    assert IsDigit(text[0]);
    hide ParseNat, Chars, NatDigits, AllDigits, Coefficient;
    SignedText(text, rest);
  }

  lemma SignedText(text: string, rest: string)
    requires text != ""
    ensures ("-" + text + rest)[0] == '-' && ("-" + text + rest)[1..] == text + rest
    ensures (text + rest)[0] == text[0]
  {}

  /** No printed value starts with white space or a closing bracket. */
  lemma PrintStarts(j: Json)
    ensures Print(j) != "" && Print(j)[0] !in {' ', '\t', '\n', '\r', ']', '}', ',', ':'}
  {
    if j.JInt? {
      IntParses(j.n, "");
    }
    hide IntText, Quoted, PrintItems, PrintMembers, SortedKeys;
    if j.JStr? {
      QuotedStarts(j.s);
    }
  }

  lemma QuotedStarts(s: string)
    ensures Quoted(s) != "" && Quoted(s)[0] == '"'
  {}

  lemma LiteralsParse(rest: string)
    ensures ParseValue("null" + rest) == Some((JNull, rest))
    ensures ParseValue("true" + rest) == Some((JBool(true), rest))
    ensures ParseValue("false" + rest) == Some((JBool(false), rest))
  {
    assert ("null" + rest)[..4] == "null" && ("null" + rest)[4..] == rest;
    assert ("true" + rest)[..4] == "true" && ("true" + rest)[4..] == rest;
    assert ("false" + rest)[..5] == "false" && ("false" + rest)[5..] == rest;
    assert !StartsWith("true" + rest, "null") by {
      assert ("true" + rest)[..4][0] == 't';
    }
    assert !StartsWith("false" + rest, "null") && !StartsWith("false" + rest, "true") by {
      assert ("false" + rest)[..4][0] == 'f';
    }
  }

  lemma NoLiteral(t: string, word: string)
    requires t != "" && word != "" && t[0] != word[0]
    ensures !StartsWith(t, word)
  {
    assert |word| <= |t| ==> t[..|word|][0] == t[0];
  }

  lemma NumberOpens(t: string)
    requires t != "" && (t[0] == '-' || IsDigit(t[0])) && ParseInt(t).Some?
    ensures ParseValue(t) == Some((JInt(ParseInt(t).value.0), ParseInt(t).value.1))
  {
    NoLiteral(t, "null");
    NoLiteral(t, "true");
    NoLiteral(t, "false");
    hide StartsWith, ParseInt;
  }

  lemma NumberParses(n: int, rest: string)
    requires Ends(rest)
    ensures ParseValue(IntText(n) + rest) == Some((JInt(n), rest))
  {
    IntParses(n, rest);
    hide IntText, ParseInt, ParseValue, Ends;
    assert (IntText(n) + rest)[0] == IntText(n)[0];
    NumberOpens(IntText(n) + rest);
  }

  lemma StringParses(s: string, rest: string)
    ensures ParseValue(Quoted(s) + rest) == Some((JStr(s), rest))
  {
    var t := Quoted(s) + rest;
    QuotedParses(s, rest);
    assert t[0] == '"' && t[1..] == Escaped(s) + "\"" + rest;
    hide Escaped, ParseChars;
  }

  lemma ArrayOpens(body: string)
    requires body != "" && body[0] !in {' ', '\t', '\n', '\r'}
    ensures ParseValue("[" + body) ==
            if body[0] == ']' then Some((JArr([]), body[1..]))
            else if ParseItems(body).Some? then
              Some((JArr(ParseItems(body).value.0), ParseItems(body).value.1))
            else None
  {
    assert ("[" + body)[1..] == body;
    hide ParseItems, ParseMembers, ParseChars, ParseInt;
  }

  lemma ObjectOpens(body: string)
    requires body != "" && body[0] !in {' ', '\t', '\n', '\r'}
    ensures ParseValue("{" + body) ==
            if body[0] == '}' then Some((JObj(map[]), body[1..]))
            else if ParseMembers(body).Some? then
              Some((JObj(ParseMembers(body).value.0), ParseMembers(body).value.1))
            else None
  {
    assert ("{" + body)[1..] == body;
    hide ParseItems, ParseMembers, ParseChars, ParseInt;
  }

  lemma LastItem(text: string, v: Json, rest: string)
    requires ParseValue(text) == Some((v, "]" + rest))
    ensures ParseItems(text) == Some(([v], rest))
  {
    hide ParseValue;
    assert ("]" + rest)[1..] == rest;
  }

  lemma OneMoreItem(text: string, v: Json, more: string)
    requires ParseValue(text) == Some((v, "," + more)) && ParseItems(more).Some?
    ensures ParseItems(text) == Some(([v] + ParseItems(more).value.0, ParseItems(more).value.1))
  {
    hide ParseValue;
    assert ("," + more)[1..] == more;
  }

  lemma NameParses(name: string, body: string)
    ensures var t := Quoted(name) + ":" + body;
            && Starts(t, '"') && SkipSpace(t) == t
            && ParseChars(t[1..]) == Some((name, ":" + body))
  {
    var t := Quoted(name) + ":" + body;
    QuotedParses(name, ":" + body);
    hide Escaped, ParseChars;
    assert t[1..] == Escaped(name) + "\"" + (":" + body);
  }

  lemma LastMember(name: string, body: string, v: Json, rest: string)
    requires ParseValue(body) == Some((v, "}" + rest))
    ensures ParseMembers(Quoted(name) + ":" + body) == Some((map[name := v], rest))
  {
    NameParses(name, body);
    hide ParseValue, ParseChars, Quoted;
    assert (":" + body)[1..] == body && ("}" + rest)[1..] == rest;
  }

  lemma OneMoreMember(name: string, body: string, v: Json, more: string)
    requires ParseValue(body) == Some((v, "," + more)) && ParseMembers(more).Some?
    ensures ParseMembers(Quoted(name) + ":" + body) ==
            Some((map[name := v] + ParseMembers(more).value.0, ParseMembers(more).value.1))
  {
    NameParses(name, body);
    hide ParseValue, ParseChars, Quoted;
    assert (":" + body)[1..] == body && ("," + more)[1..] == more;
  }

  lemma {:induction false} PrintedParses(j: Json, rest: string)
    requires Ends(rest)
    ensures ParseValue(Print(j) + rest) == Some((j, rest))
    decreases j, 3
  {
    hide ParseValue, IntText, Quoted, PrintItems, PrintMembers, SortedKeys;
    match j
    case JNull => LiteralsParse(rest);
    case JBool(b) => LiteralsParse(rest);
    case JInt(n) => NumberParses(n, rest);
    case JStr(s) => StringParses(s, rest);
    case JArr(items) => ArrayParses(items, rest);
    case JObj(members) => ObjectParses(j, rest);
  }

  lemma {:induction false} ArrayParses(items: seq<Json>, rest: string)
    requires Ends(rest)
    ensures ParseValue("[" + PrintItems(items) + "]" + rest) == Some((JArr(items), rest))
    decreases items, 1
  {
    var body := PrintItems(items) + "]" + rest;
    assert "[" + PrintItems(items) + "]" + rest == "[" + body;
    if items == [] {
      assert body == "]" + rest && body[1..] == rest;
      ArrayOpens(body);
    } else {
      ItemsParse(items, rest);
      ItemsStart(items);
      hide PrintItems, ParseValue, ParseItems;
      assert body[0] == PrintItems(items)[0];
      ArrayOpens(body);
    }
  }

  lemma ItemsStart(items: seq<Json>)
    requires items != []
    ensures PrintItems(items) != "" && PrintItems(items)[0] !in {' ', '\t', '\n', '\r', ']'}
  {
    PrintStarts(items[0]);
    hide Print;
  }

  lemma {:induction false} ItemsParse(items: seq<Json>, rest: string)
    requires items != []
    ensures ParseItems(PrintItems(items) + "]" + rest) == Some((items, rest))
    decreases items, 0
  {
    hide ParseValue, ParseItems, Print;
    var text, first := PrintItems(items) + "]" + rest, Print(items[0]);
    if |items| == 1 {
      PrintedParses(items[0], "]" + rest);
      assert text == first + ("]" + rest);
      LastItem(text, items[0], rest);
      assert items == [items[0]];
    } else {
      var more := PrintItems(items[1..]) + "]" + rest;
      PrintedParses(items[0], "," + more);
      ItemsParse(items[1..], rest);
      hide PrintItems;
      assert text == first + ("," + more) by { ItemsHead(items, rest); }
      OneMoreItem(text, items[0], more);
      assert items == [items[0]] + items[1..];
    }
  }

  lemma ItemsHead(items: seq<Json>, rest: string)
    requires |items| > 1
    ensures PrintItems(items) + "]" + rest ==
            Print(items[0]) + ("," + (PrintItems(items[1..]) + "]" + rest))
  {
    hide Print;
  }

  lemma {:induction false} ObjectParses(j: Json, rest: string)
    requires j.JObj? && Ends(rest)
    ensures ParseValue("{" + PrintMembers(j, SortedKeys(j.members.Keys)) + "}" + rest) == Some((j, rest))
    decreases j, 2
  {
    var keys := SortedKeys(j.members.Keys);
    hide SortedKeys, ParseValue, ParseMembers, Less;
    if keys == [] {
      EmptyObjectParses(rest);
      assert j.members == map[];
    } else {
      DistinctKeys(keys);
      MembersParse(j, keys, rest);
      MembersStart(j, keys);
      hide *;
      MembersClose(PrintMembers(j, keys), rest, map k | k in keys :: j.members[k]);
      assert j.members == map k | k in keys :: j.members[k];
    }
  }

  lemma EmptyObjectParses(rest: string)
    ensures ParseValue("{" + "" + "}" + rest) == Some((JObj(map[]), rest))
  {
    ObjectOpens("}" + rest);
    hide ParseValue;
    assert "{" + "" + "}" + rest == "{" + ("}" + rest);
    assert ("}" + rest)[1..] == rest;
  }

  lemma MembersClose(text: string, rest: string, members: map<string, Json>)
    requires text != "" && text[0] == '"'
    requires ParseMembers(text + "}" + rest) == Some((members, rest))
    ensures ParseValue("{" + text + "}" + rest) == Some((JObj(members), rest))
  {
    var body := text + "}" + rest;
    hide ParseValue, ParseMembers;
    assert body[0] == text[0];
    ObjectOpens(body);
    assert "{" + text + "}" + rest == "{" + body;
  }

  lemma DistinctKeys(keys: seq<string>)
    requires Increasing(keys)
    ensures forall a, b | 0 <= a < b < |keys| :: keys[a] != keys[b]
  {
    forall a, b | 0 <= a < b < |keys| ensures keys[a] != keys[b] {
      LessIsStrict(keys[a], keys[b]);
    }
  }

  lemma MembersStart(j: Json, keys: seq<string>)
    requires j.JObj? && keys != [] && forall k | k in keys :: k in j.members
    ensures PrintMembers(j, keys) != "" && PrintMembers(j, keys)[0] == '"'
  {
    hide Print;
  }

  lemma {:induction false} MembersParse(j: Json, keys: seq<string>, rest: string)
    requires j.JObj? && keys != [] && forall k | k in keys :: k in j.members
    requires forall a, b | 0 <= a < b < |keys| :: keys[a] != keys[b]
    ensures ParseMembers(PrintMembers(j, keys) + "}" + rest) ==
            Some((map k | k in keys :: j.members[k], rest))
    decreases j, 1, |keys|
  {
    hide ParseValue, ParseMembers, Print;
    var name := keys[0];
    var value := j.members[name];
    if |keys| == 1 {
      PrintedParses(value, "}" + rest);
      LastMember(name, Print(value) + ("}" + rest), value, rest);
      assert PrintMembers(j, keys) + "}" + rest == Quoted(name) + ":" + (Print(value) + ("}" + rest)) by {
        hide Quoted;
      }
      assert (map k | k in keys :: j.members[k]) == map[name := value];
    } else {
      var more := PrintMembers(j, keys[1..]) + "}" + rest;
      PrintedParses(value, "," + more);
      MembersParse(j, keys[1..], rest);
      OneMoreMember(name, Print(value) + ("," + more), value, more);
      MembersHead(j, keys, rest);
      hide PrintMembers, Quoted;
      SplitMembers(j.members, keys);
    }
  }

  lemma MembersHead(j: Json, keys: seq<string>, rest: string)
    requires j.JObj? && |keys| > 1 && forall k | k in keys :: k in j.members
    ensures PrintMembers(j, keys) + "}" + rest ==
            Quoted(keys[0]) + ":" + (Print(j.members[keys[0]])
                                     + ("," + (PrintMembers(j, keys[1..]) + "}" + rest)))
  {
    Regroup(Quoted(keys[0]), Print(j.members[keys[0]]), PrintMembers(j, keys[1..]), rest);
    hide Print, Quoted;
  }

  lemma Regroup(name: string, value: string, more: string, rest: string)
    ensures name + ":" + value + "," + more + "}" + rest ==
            name + ":" + (value + ("," + (more + "}" + rest)))
  {}

  lemma SplitMembers(members: map<string, Json>, keys: seq<string>)
    requires keys != [] && forall k | k in keys :: k in members
    requires forall a, b | 0 <= a < b < |keys| :: keys[a] != keys[b]
    ensures (map k | k in keys :: members[k]) ==
            map[keys[0] := members[keys[0]]] + map k | k in keys[1..] :: members[k]
  {
    assert keys == [keys[0]] + keys[1..];
  }

  /** The printed text of a normalized tree parses back to the same tree. */
  lemma PrintedTextParses(j: Json)
    ensures Parse(Print(j)) == Some(j)
  {
    PrintedParses(j, "");
    assert Print(j) + "" == Print(j);
  }

  /** So equal text means equal tree. */
  lemma PrintIsInjective(a: Json, b: Json)
    requires Print(a) == Print(b)
    ensures a == b
  {
    PrintedTextParses(a);
    PrintedTextParses(b);
  }

  // ----- the layout of the text -------------------------------------------------------------------

  function Joined(parts: seq<string>): string {
    if parts == [] then ""
    else if |parts| == 1 then parts[0]
    else Joined(parts[..|parts| - 1]) + "," + parts[|parts| - 1]
  }

  lemma {:induction false} JoinedFront(parts: seq<string>)
    requires |parts| > 1
    ensures Joined(parts) == parts[0] + "," + Joined(parts[1..])
    decreases |parts|
  {
    var n := |parts| - 1;
    if n > 1 {
      JoinedFront(parts[..n]);
      assert parts[..n][1..] == parts[1..][..n - 1];
    } else {
      assert parts[..1] == [parts[0]] && parts[1..] == [parts[1]];
    }
  }

  function MemberTexts(members: map<string, Json>, keys: seq<string>): (r: seq<string>)
    requires forall k | k in keys :: k in members
  {
    seq(|keys|, i requires 0 <= i < |keys| => Quoted(keys[i]) + ":" + Print(members[keys[i]]))
  }

  function ItemTexts(items: seq<Json>): (r: seq<string>) {
    seq(|items|, i requires 0 <= i < |items| => Print(items[i]))
  }

  /** An array is its items in order, an object its members by increasing key, each key once, with nothing
      but commas and colons between. */
  lemma LayoutOfText(j: Json)
    ensures j.JArr? ==> Print(j) == "[" + Joined(ItemTexts(j.items)) + "]"
    ensures j.JObj? ==>
              exists keys :: Increasing(keys) && (forall k :: k in keys <==> k in j.members)
                             && Print(j) == "{" + Joined(MemberTexts(j.members, keys)) + "}"
  {
    hide Increasing, Quoted;
    if j.JArr? {
      ItemsJoined(j.items);
    } else if j.JObj? {
      var keys := SortedKeys(j.members.Keys);
      MembersJoined(j, keys);
      assert Increasing(keys) && (forall k :: k in keys <==> k in j.members)
             && Print(j) == "{" + Joined(MemberTexts(j.members, keys)) + "}";
    }
  }

  lemma {:induction false} ItemsJoined(items: seq<Json>)
    ensures PrintItems(items) == Joined(ItemTexts(items))
  {
    hide Print;
    if |items| > 1 {
      ItemsJoined(items[1..]);
      JoinedFront(ItemTexts(items));
      assert ItemTexts(items)[1..] == ItemTexts(items[1..]);
    }
  }

  lemma {:induction false} MembersJoined(j: Json, keys: seq<string>)
    requires j.JObj? && forall k | k in keys :: k in j.members
    ensures PrintMembers(j, keys) == Joined(MemberTexts(j.members, keys))
    decreases |keys|
  {
    hide Print, Quoted;
    if |keys| > 1 {
      MembersJoined(j, keys[1..]);
      JoinedFront(MemberTexts(j.members, keys));
      assert MemberTexts(j.members, keys)[1..] == MemberTexts(j.members, keys[1..]);
    }
  }
}
