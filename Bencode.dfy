/** Bencoding, as defined in the "bencoding" section of BitTorrent BEP 3: the body format
    of every NG protocol message.

    Integers are `i<decimal>e` with no leading zero and no negative zero; byte strings are
    `<length>:<bytes>`; lists are `l<items>e`; dictionaries are `d<key><value>...e` whose keys
    are byte strings. A byte is modelled as one `char`. The encoder writes dictionary entries
    in the order given (callers supply them sorted by key, as BEP 3 requires); the parser
    accepts any key order and only canonical numbers, so that it accepts exactly what the
    encoder can produce. */
module Bencode {
  import opened Wrappers

  datatype BValue =
    | BInt(i: int)
    | BStr(s: string)
    | BList(items: seq<BValue>)
    | BDict(entries: seq<Entry>)

  /** One dictionary entry: a byte-string key and its value. */
  datatype Entry = Entry(key: string, val: BValue)

  // ---- Decimal numbers ----

  predicate IsDigit(c: char)
  {
    '0' <= c <= '9'
  }

  predicate AllDigits(s: string)
  {
    forall i :: 0 <= i < |s| ==> IsDigit(s[i])
  }

  /** A canonical decimal numeral: non-empty, digits only, no leading zero except "0". */
  predicate Canonical(s: string)
  {
    |s| > 0 && AllDigits(s) && (s[0] == '0' ==> |s| == 1)
  }

  function DigitChar(d: nat): (c: char)
    requires d < 10
    ensures IsDigit(c) && c as int - '0' as int == d
  {
    ('0' as int + d) as char
  }

  /** The value of a numeral, read most significant digit first. */
  function DigitsValue(s: string): nat
    requires AllDigits(s)
  {
    if s == [] then 0
    else DigitsValue(s[..|s| - 1]) * 10 + (s[|s| - 1] as int - '0' as int)
  }

  /** The decimal numeral of `n`: canonical, and it denotes `n`. */
  function NatToString(n: nat): (r: string)
    ensures Canonical(r)
    ensures DigitsValue(r) == n
  {
    if n < 10 then [DigitChar(n)]
    else
      var r := NatToString(n / 10) + [DigitChar(n % 10)];
      assert r[..|r| - 1] == NatToString(n / 10);
      r
  }

  /** The decimal numeral of a signed integer, "-" before the magnitude of a negative one. */
  function IntToString(i: int): (r: string)
    ensures i >= 0 ==> r == NatToString(i)
    ensures i < 0 ==> r == "-" + NatToString(-i) && r[1] != '0'
  {
    if i < 0 then "-" + NatToString(-i) else NatToString(i)
  }

  /** The length of the run of digits at the start of `s`. */
  function DigitSpan(s: string): (k: nat)
    ensures k <= |s| && AllDigits(s[..k])
    ensures k < |s| ==> !IsDigit(s[k])
  {
    if s == [] || !IsDigit(s[0]) then 0
    else
      var k := 1 + DigitSpan(s[1..]);
      assert s[..k] == [s[0]] + s[1..][..k - 1];
      k
  }

  /** A canonical numeral at the start of `s` and what follows it. */
  function ParseNumeral(s: string): (r: Option<(nat, string)>)
    ensures r.Some? ==> |r.value.1| < |s|
  {
    var k := DigitSpan(s);
    if k == 0 || (s[0] == '0' && k > 1) then None
    else Some((DigitsValue(s[..k]), s[k..]))
  }

  /** An integer body `[-]<numeral>e` (after the 'i'), rejecting "-0". */
  function ParseInt(s: string): (r: Option<(int, string)>)
    ensures r.Some? ==> |r.value.1| < |s|
  {
    var neg := |s| > 0 && s[0] == '-';
    var t := if neg then s[1..] else s;
    match ParseNumeral(t)
    case None => None
    case Some((n, rest)) =>
      if rest == [] || rest[0] != 'e' || (neg && n == 0) then None
      else
        var i: int := if neg then -(n as int) else n;
        Some((i, rest[1..]))
  }

  /** A byte string `<length>:<bytes>`. */
  function ParseString(s: string): (r: Option<(string, string)>)
    ensures r.Some? ==> |r.value.1| < |s|
  {
    match ParseNumeral(s)
    case None => None
    case Some((n, rest)) =>
      if rest == [] || rest[0] != ':' || |rest| - 1 < n then None
      else Some((rest[1..1 + n], rest[1 + n..]))
  }

  // ---- Encoder ----

  /** The bencoding of a value. It is never empty and never starts with the list and
      dictionary terminator 'e'. */
  function Encode(v: BValue): (r: string)
    ensures |r| > 0 && r[0] != 'e'
  {
    match v
    case BInt(i) => "i" + IntToString(i) + "e"
    case BStr(s) => EncodeString(s)
    case BList(items) => "l" + EncodeList(items) + "e"
    case BDict(entries) => "d" + EncodeEntries(entries) + "e"
  }

  /** A byte string with its length prefix; it starts with a digit. */
  function EncodeString(s: string): (r: string)
    ensures |r| > 0 && IsDigit(r[0])
  {
    NatToString(|s|) + ":" + s
  }

  function EncodeList(items: seq<BValue>): string
  {
    if items == [] then "" else Encode(items[0]) + EncodeList(items[1..])
  }

  function EncodeEntries(entries: seq<Entry>): string
  {
    if entries == [] then ""
    else EncodeString(entries[0].key) + Encode(entries[0].val) + EncodeEntries(entries[1..])
  }

  // ---- Parser ----

  /** One value at the start of `s` and what follows it. */
  function ParseValue(s: string): (r: Option<(BValue, string)>)
    decreases |s|, 0
    ensures r.Some? ==> |r.value.1| < |s|
  {
    if s == [] then None
    else if s[0] == 'i' then
      match ParseInt(s[1..])
      case None => None
      case Some((n, rest)) => Some((BInt(n), rest))
    else if s[0] == 'l' then
      match ParseList(s[1..])
      case None => None
      case Some((items, rest)) => Some((BList(items), rest))
    else if s[0] == 'd' then
      match ParseEntries(s[1..])
      case None => None
      case Some((entries, rest)) => Some((BDict(entries), rest))
    else
      match ParseString(s)
      case None => None
      case Some((str, rest)) => Some((BStr(str), rest))
  }

  /** The items of a list up to and including its terminator 'e'. */
  function ParseList(s: string): (r: Option<(seq<BValue>, string)>)
    decreases |s|, 1
    ensures r.Some? ==> |r.value.1| < |s|
  {
    if s == [] then None
    else if s[0] == 'e' then Some(([], s[1..]))
    else
      match ParseValue(s)
      case None => None
      case Some((v, rest)) =>
        match ParseList(rest)
        case None => None
        case Some((vs, rest')) => Some(([v] + vs, rest'))
  }

  /** The entries of a dictionary up to and including its terminator 'e'. */
  function ParseEntries(s: string): (r: Option<(seq<Entry>, string)>)
    decreases |s|, 1
    ensures r.Some? ==> |r.value.1| < |s|
  {
    if s == [] then None
    else if s[0] == 'e' then Some(([], s[1..]))
    else
      match ParseString(s)
      case None => None
      case Some((k, rest)) =>
        match ParseValue(rest)
        case None => None
        case Some((v, rest')) =>
          match ParseEntries(rest')
          case None => None
          case Some((es, rest'')) => Some(([Entry(k, v)] + es, rest''))
  }

  /** A whole message body: exactly one dictionary and nothing after it. */
  function ParseDict(s: string): (r: Option<seq<Entry>>)
    ensures r.Some? <==> ParseValue(s).Some? && ParseValue(s).value.0.BDict?
                         && ParseValue(s).value.1 == []
    ensures r.Some? ==> ParseValue(s).value.0 == BDict(r.value)
  {
    match ParseValue(s)
    case Some((BDict(entries), rest)) => if rest == [] then Some(entries) else None
    case _ => None
  }

  /** The value stored under `key`; when a key occurs twice, the later entry wins, as when
      the entries are loaded into a map one after the other. */
  function Lookup(entries: seq<Entry>, key: string): Option<BValue>
  {
    if entries == [] then None
    else if entries[|entries| - 1].key == key then Some(entries[|entries| - 1].val)
    else Lookup(entries[..|entries| - 1], key)
  }

  /** The last entry carrying `key` decides what Lookup finds. */
  lemma {:induction false} LookupLastWins(entries: seq<Entry>, key: string, i: nat)
    requires i < |entries| && entries[i].key == key
    requires forall j :: i < j < |entries| ==> entries[j].key != key
    ensures Lookup(entries, key) == Some(entries[i].val)
  {
    var n := |entries| - 1;
    if i < n {
      var init := entries[..n];
      assert init[i] == entries[i];
      LookupLastWins(init, key, i);
    }
  }

  /** An entry whose key no other entry carries is what Lookup finds for that key. */
  lemma {:induction false} LookupUnique(entries: seq<Entry>, x: Entry)
    requires x in entries
    requires forall e :: e in entries && e.key == x.key ==> e == x
    ensures Lookup(entries, x.key) == Some(x.val)
  {
    var n := |entries| - 1;
    if entries[n].key != x.key {
      var init := entries[..n];
      assert entries == init + [entries[n]];
      assert x in init;
      forall e | e in init && e.key == x.key
        ensures e == x
      {
        assert e in entries;
      }
      LookupUnique(init, x);
    }
  }

  /** Pairs each key with the value at the same place. */
  function Zip(keys: seq<string>, vals: seq<BValue>): (r: seq<Entry>)
    requires |keys| == |vals|
    ensures |r| == |keys| && forall i :: 0 <= i < |keys| ==> r[i] == Entry(keys[i], vals[i])
  {
    if keys == [] then [] else [Entry(keys[0], vals[0])] + Zip(keys[1..], vals[1..])
  }

  /** Lookup finds nothing exactly for a key no entry carries. */
  lemma {:induction false} LookupNone(entries: seq<Entry>, key: string)
    ensures Lookup(entries, key).None? <==> forall e :: e in entries ==> e.key != key
  {
    if entries != [] {
      var n := |entries| - 1;
      var init := entries[..n];
      assert entries == init + [entries[n]];
      LookupNone(init, key);
    }
  }

  // ---- Numerals read back ----

  /** A run of digits followed by a non-digit is measured exactly. */
  lemma {:induction false} DigitSpanOfDigits(d: string, rest: string)
    requires AllDigits(d)
    requires rest == [] || !IsDigit(rest[0])
    ensures DigitSpan(d + rest) == |d|
  {
    if d != [] {
      assert (d + rest)[1..] == d[1..] + rest;
      DigitSpanOfDigits(d[1..], rest);
    }
  }

  /** A numeral written by NatToString reads back as its value, leaving what follows. */
  lemma NumeralRoundTrip(n: nat, rest: string)
    requires rest == [] || !IsDigit(rest[0])
    ensures ParseNumeral(NatToString(n) + rest) == Some((n, rest))
  {
    var d := NatToString(n);
    DigitSpanOfDigits(d, rest);
    assert (d + rest)[..|d|] == d;
    assert (d + rest)[|d|..] == rest;
  }

  // ---- Round trip ----

  lemma StringRoundTrip(s: string, rest: string)
    ensures ParseString(EncodeString(s) + rest) == Some((s, rest))
  {
    var d := NatToString(|s|);
    assert EncodeString(s) + rest == d + (":" + s + rest);
    NumeralRoundTrip(|s|, ":" + s + rest);
    assert (":" + s + rest)[1..1 + |s|] == s;
    assert (":" + s + rest)[1 + |s|..] == rest;
  }

  lemma IntRoundTrip(i: int, rest: string)
    ensures ParseInt(IntToString(i) + "e" + rest) == Some((i, rest))
  {
    if i < 0 {
      NegRoundTrip(-i, rest);
    } else {
      NonNegRoundTrip(i, rest);
    }
  }

  lemma NegRoundTrip(n: nat, rest: string)
    requires n > 0
    ensures ParseInt("-" + NatToString(n) + "e" + rest) == Some((-(n as int), rest))
  {
    var s := "-" + NatToString(n) + "e" + rest;
    assert s[1..] == NatToString(n) + ("e" + rest);
    NumeralRoundTrip(n, "e" + rest);
    ParseIntNegative(s, n, "e" + rest);
    assert ("e" + rest)[1..] == rest;
  }

  /** A minus sign, a positive numeral and "e" are accepted as a negative integer. */
  lemma ParseIntNegative(s: string, n: nat, rest: string)
    requires |s| > 0 && s[0] == '-' && ParseNumeral(s[1..]) == Some((n, rest))
    requires n > 0 && |rest| > 0 && rest[0] == 'e'
    ensures ParseInt(s) == Some((-(n as int), rest[1..]))
  {
  }

  lemma NonNegRoundTrip(n: nat, rest: string)
    ensures ParseInt(NatToString(n) + "e" + rest) == Some((n, rest))
  {
    var d := NatToString(n);
    var s := d + "e" + rest;
    NumeralRoundTrip(n, "e" + rest);
    assert s == d + ("e" + rest);
  }

  // Sequence algebra used by the round trip, stated once so that each use is a single step.

  lemma RegroupTwo(a: string, b: string, c: string, d: string)
    ensures (a + b) + c + d == a + (b + c + d)
  {
  }

  lemma RegroupThree(a: string, b: string, c: string, d: string, e: string)
    ensures (a + b + c) + d + e == a + (b + (c + d + e))
  {
  }

  lemma DropTag(tag: string, body: string, rest: string)
    requires |tag| == 1
    ensures (tag + body + "e" + rest)[1..] == body + "e" + rest
  {
  }

  /** Parsing inverts encoding: the parser reads back exactly the encoded value and leaves
      whatever followed it untouched. */
  lemma {:induction false} RoundTrip(v: BValue, rest: string)
    ensures ParseValue(Encode(v) + rest) == Some((v, rest))
  {
    var s := Encode(v) + rest;
    match v
    case BInt(i) =>
      DropTag("i", IntToString(i), rest);
      IntRoundTrip(i, rest);
    case BStr(str) =>
      StringRoundTrip(str, rest);
    case BList(items) =>
      DropTag("l", EncodeList(items), rest);
      ListRoundTrip(items, rest);
    case BDict(entries) =>
      DropTag("d", EncodeEntries(entries), rest);
      EntriesRoundTrip(entries, rest);
  }

  lemma {:induction false} ListRoundTrip(items: seq<BValue>, rest: string)
    ensures ParseList(EncodeList(items) + "e" + rest) == Some((items, rest))
  {
    if items != [] {
      var tail := EncodeList(items[1..]) + "e" + rest;
      RegroupTwo(Encode(items[0]), EncodeList(items[1..]), "e", rest);
      RoundTrip(items[0], tail);
      ListRoundTrip(items[1..], rest);
      assert [items[0]] + items[1..] == items;
    }
  }

  lemma {:induction false} EntriesRoundTrip(entries: seq<Entry>, rest: string)
    ensures ParseEntries(EncodeEntries(entries) + "e" + rest) == Some((entries, rest))
  {
    if entries != [] {
      var e := entries[0];
      RegroupThree(EncodeString(e.key), Encode(e.val), EncodeEntries(entries[1..]), "e", rest);
      EntriesRoundTrip(entries[1..], rest);
      EntryRoundTrip(e, EncodeEntries(entries[1..]) + "e" + rest, entries[1..], rest);
      assert entries == [e] + entries[1..];
    }
  }

  /** One encoded entry in front of entries that parse is read back in front of them. */
  lemma EntryRoundTrip(e: Entry, tail: string, es: seq<Entry>, rest: string)
    requires ParseEntries(tail) == Some((es, rest))
    ensures ParseEntries(EncodeString(e.key) + (Encode(e.val) + tail)) == Some(([e] + es, rest))
  {
    StringRoundTrip(e.key, Encode(e.val) + tail);
    RoundTrip(e.val, tail);
  }

  /** A dictionary on its own is read back as a whole message body. */
  lemma DictRoundTrip(entries: seq<Entry>)
    ensures ParseDict(Encode(BDict(entries))) == Some(entries)
  {
    RoundTrip(BDict(entries), []);
    assert Encode(BDict(entries)) + [] == Encode(BDict(entries));
  }

  // ---- Only encodings are accepted ----

  /** A canonical numeral with a non-zero first digit denotes a positive number. */
  lemma {:induction false} LeadingDigitPositive(d: string)
    requires |d| > 0 && AllDigits(d) && d[0] != '0'
    ensures DigitsValue(d) > 0
  {
    if |d| > 1 {
      LeadingDigitPositive(d[..|d| - 1]);
    }
  }

  /** Reading a canonical numeral and writing its value back gives the same numeral. */
  lemma {:induction false} CanonicalNumeral(d: string)
    requires Canonical(d)
    ensures NatToString(DigitsValue(d)) == d
  {
    if |d| > 1 {
      var p := d[..|d| - 1];
      var c := d[|d| - 1] as int - '0' as int;
      LeadingDigitPositive(p);
      CanonicalNumeral(p);
      var v := DigitsValue(d);
      assert v / 10 == DigitsValue(p) && v % 10 == c;
      assert DigitChar(c) == d[|d| - 1];
      assert d == p + [d[|d| - 1]];
    }
  }

  lemma NumeralSound(s: string)
    requires ParseNumeral(s).Some?
    ensures s == NatToString(ParseNumeral(s).value.0) + ParseNumeral(s).value.1
  {
    var k := DigitSpan(s);
    CanonicalNumeral(s[..k]);
    assert s == s[..k] + s[k..];
  }

  lemma IntSound(s: string)
    requires ParseInt(s).Some?
    ensures s == IntToString(ParseInt(s).value.0) + "e" + ParseInt(s).value.1
  {
    if |s| > 0 && s[0] == '-' {
      NegativeIntSound(s);
    } else {
      NonNegativeIntSound(s);
    }
  }

  lemma NegativeIntSound(s: string)
    requires |s| > 0 && s[0] == '-' && ParseInt(s).Some?
    ensures s == IntToString(ParseInt(s).value.0) + "e" + ParseInt(s).value.1
  {
    var (n, rest) := ParseNumeral(s[1..]).value;
    assert ParseInt(s) == Some((-(n as int), rest[1..]));
    NegativeIntText(s, n, rest);
  }

  /** The text of an accepted negative integer: a minus sign, the numeral, then "e". */
  lemma NegativeIntText(s: string, n: nat, rest: string)
    requires |s| > 0 && s[0] == '-' && ParseNumeral(s[1..]) == Some((n, rest))
    requires n > 0 && |rest| > 0 && rest[0] == 'e'
    ensures s == IntToString(-(n as int)) + "e" + rest[1..]
  {
    NumeralSound(s[1..]);
    var digits := NatToString(n);
    assert s[1..] == digits + rest;
    assert IntToString(-(n as int)) == "-" + digits;
    assert rest == "e" + rest[1..];
    assert s == "-" + (digits + ("e" + rest[1..]));
    RegroupTwo("-", digits, "e", rest[1..]);
  }

  lemma NonNegativeIntSound(s: string)
    requires !(|s| > 0 && s[0] == '-') && ParseInt(s).Some?
    ensures s == IntToString(ParseInt(s).value.0) + "e" + ParseInt(s).value.1
  {
    NumeralSound(s);
    var (n, rest) := ParseNumeral(s).value;
    assert ParseInt(s) == Some((n as int, rest[1..]));
    assert rest == "e" + rest[1..];
  }

  lemma StringSound(s: string)
    requires ParseString(s).Some?
    ensures s == EncodeString(ParseString(s).value.0) + ParseString(s).value.1
  {
    NumeralSound(s);
    var (n, rest) := ParseNumeral(s).value;
    assert ParseString(s) == Some((rest[1..1 + n], rest[1 + n..]));
    StringText(s, n, rest);
  }

  /** A length numeral, a colon and that many characters are an encoded string. */
  lemma StringText(s: string, n: nat, rest: string)
    requires s == NatToString(n) + rest
    requires |rest| > 0 && rest[0] == ':' && |rest| - 1 >= n
    ensures s == EncodeString(rest[1..1 + n]) + rest[1 + n..]
  {
    var text, tail := rest[1..1 + n], rest[1 + n..];
    assert |text| == n;
    assert rest == ":" + text + tail;
    assert s == NatToString(|text|) + (":" + text + tail);
  }

  /** The parser accepts nothing but encodings: whatever it reads is the encoding of the
      value it returns, followed by the remainder it returns. Together with RoundTrip this
      makes Encode and ParseValue exact inverses. */
  lemma {:induction false} ValueSound(s: string)
    requires ParseValue(s).Some?
    ensures s == Encode(ParseValue(s).value.0) + ParseValue(s).value.1
    decreases |s|, 0
  {
    if s[0] == 'i' {
      IntValueSound(s);
    } else if s[0] == 'l' {
      var (items, rest) := ParseList(s[1..]).value;
      assert ParseValue(s).value == (BList(items), rest);
      ListSound(s[1..]);
      assert s == "l" + s[1..];
    } else if s[0] == 'd' {
      var (entries, rest) := ParseEntries(s[1..]).value;
      assert ParseValue(s).value == (BDict(entries), rest);
      EntriesSound(s[1..]);
      assert s == "d" + s[1..];
    } else {
      StringValueSound(s);
    }
  }

  lemma IntValueSound(s: string)
    requires ParseValue(s).Some? && s[0] == 'i'
    ensures s == Encode(ParseValue(s).value.0) + ParseValue(s).value.1
  {
    var (n, rest) := ParseInt(s[1..]).value;
    assert ParseValue(s).value == (BInt(n), rest);
    IntSound(s[1..]);
    assert s == "i" + s[1..];
  }

  lemma StringValueSound(s: string)
    requires ParseValue(s).Some? && s[0] != 'i' && s[0] != 'l' && s[0] != 'd'
    ensures s == Encode(ParseValue(s).value.0) + ParseValue(s).value.1
  {
    var (text, rest) := ParseString(s).value;
    assert ParseValue(s).value == (BStr(text), rest);
    StringSound(s);
  }

  lemma {:induction false} ListSound(s: string)
    requires ParseList(s).Some?
    ensures s == EncodeList(ParseList(s).value.0) + "e" + ParseList(s).value.1
    decreases |s|, 1
  {
    if s[0] == 'e' {
      assert s == "e" + s[1..];
    } else {
      var (v, rest) := ParseValue(s).value;
      ValueSound(s);
      ListSound(rest);
      var (vs, rest') := ParseList(rest).value;
      assert ([v] + vs)[1..] == vs;
      RegroupTwo(Encode(v), EncodeList(vs), "e", rest');
    }
  }

  lemma {:induction false} EntriesSound(s: string)
    requires ParseEntries(s).Some?
    ensures s == EncodeEntries(ParseEntries(s).value.0) + "e" + ParseEntries(s).value.1
    decreases |s|, 1
  {
    if s[0] == 'e' {
      assert s == "e" + s[1..];
    } else {
      var (k, rest) := ParseString(s).value;
      StringSound(s);
      var (v, rest') := ParseValue(rest).value;
      ValueSound(rest);
      EntriesSound(rest');
      var (es, rest'') := ParseEntries(rest').value;
      assert ([Entry(k, v)] + es)[1..] == es;
      RegroupThree(EncodeString(k), Encode(v), EncodeEntries(es), "e", rest'');
    }
  }

  /** A message body is accepted exactly when it is the encoding of a dictionary. */
  lemma DictExact(s: string, entries: seq<Entry>)
    ensures ParseDict(s) == Some(entries) <==> s == Encode(BDict(entries))
  {
    if s == Encode(BDict(entries)) {
      DictRoundTrip(entries);
    }
    if ParseDict(s) == Some(entries) {
      ValueSound(s);
      assert s == Encode(BDict(entries)) + [];
    }
  }
}
