/**
 * Text codecs shared by the model.
 *
 * - Decimal rendering of integers, as JavaScript's `String(n)` and template
 *   literals print an integral number, with a parser that reads it back.
 * - A percent-escaping pair codec `k1=v1&k2=v2` with a parser that reads it
 *   back. It stands in for `URLSearchParams` serialisation and, in
 *   `SessionCodec`, for the JSON text that `localStorage` holds. Only the
 *   properties the model relies on are claimed: it is injective and its
 *   parser inverts it.
 */
module Codec {
  import opened Wrappers

  // ---------------------------------------------------------------- decimal

  predicate IsDigit(c: char) { '0' <= c <= '9' }

  predicate AllDigits(s: string) { forall i :: 0 <= i < |s| ==> IsDigit(s[i]) }

  function DigitChar(d: nat): (c: char)
    requires d < 10
    ensures IsDigit(c) && (c as int) - ('0' as int) == d
  {
    (('0' as int) + d) as char
  }

  /** `String(n)` for a non-negative integral number. */
  function NatToString(n: nat): (s: string)
    ensures |s| > 0 && AllDigits(s)
  {
    if n < 10 then [DigitChar(n)] else NatToString(n / 10) + [DigitChar(n % 10)]
  }

  /** `String(i)` for an integral number: a minus sign, then the magnitude. */
  function IntToString(i: int): (s: string)
    ensures |s| > 0
    ensures i >= 0 <==> s[0] != '-'
  {
    if i < 0 then "-" + NatToString(-i) else NatToString(i)
  }

  function DigitsValue(s: string): nat
    requires AllDigits(s)
  {
    if s == [] then 0
    else DigitsValue(s[..|s| - 1]) * 10 + ((s[|s| - 1] as int) - ('0' as int))
  }

  /** Reads a non-empty run of decimal digits; anything else is not a number. */
  function ParseNat(s: string): Option<nat>
  {
    if s != [] && AllDigits(s) then Some(DigitsValue(s)) else None
  }

  /** Reads an optional minus sign followed by decimal digits. */
  function ParseInt(s: string): Option<int>
  {
    if |s| > 0 && s[0] == '-' then
      match ParseNat(s[1..])
      case Some(n) => Some(-(n as int))
      case None => None
    else
      match ParseNat(s)
      case Some(n) => Some(n)
      case None => None
  }

  lemma {:induction false} NatRoundTrip(n: nat)
    ensures ParseNat(NatToString(n)) == Some(n)
  {
    var s := NatToString(n);
    if n < 10 {
      assert s[..|s| - 1] == [];
      assert DigitsValue(s) == DigitsValue([]) * 10 + n;
    } else {
      NatRoundTrip(n / 10);
      assert s[..|s| - 1] == NatToString(n / 10);
    }
  }

  /** Every integer printed by `IntToString` is read back unchanged. */
  lemma IntRoundTrip(i: int)
    ensures ParseInt(IntToString(i)) == Some(i)
  {
    if i < 0 {
      NatRoundTrip(-i);
      assert IntToString(i)[1..] == NatToString(-i);
    } else {
      NatRoundTrip(i);
    }
  }

  // ------------------------------------------------------- percent-escaping

  /** The characters that are never emitted bare by `Escape`. */
  predicate Reserved(c: char) { c == '&' || c == '=' || c == '%' || c == '+' || c == '#' || c == ' ' }

  function EscapeChar(c: char): (s: string)
    ensures |s| > 0
    ensures forall i :: 0 <= i < |s| ==> s[i] != '&' && s[i] != '='
  {
    match c
    case ' ' => "+"
    case '%' => "%25"
    case '&' => "%26"
    case '=' => "%3D"
    case '+' => "%2B"
    case '#' => "%23"
    case _ => [c]
  }

  /** Percent-escapes a component so that it never contains `&` or `=`. */
  function Escape(s: string): (r: string)
    ensures forall i :: 0 <= i < |r| ==> r[i] != '&' && r[i] != '='
  {
    if s == [] then [] else EscapeChar(s[0]) + Escape(s[1..])
  }

  function UnescapeCode(a: char, b: char): Option<char>
  {
    if a == '2' && b == '5' then Some('%')
    else if a == '2' && b == '6' then Some('&')
    else if a == '3' && b == 'D' then Some('=')
    else if a == '2' && b == 'B' then Some('+')
    else if a == '2' && b == '3' then Some('#')
    else None
  }

  lemma EscapeCharUnreserved(c: char)
    requires !Reserved(c)
    ensures EscapeChar(c) == [c]
  {
  }

  /** Text without reserved characters is left as it is. */
  lemma {:induction false} EscapeUnreserved(s: string)
    requires forall i :: 0 <= i < |s| ==> !Reserved(s[i])
    ensures Escape(s) == s
  {
    if s != [] {
      EscapeCharUnreserved(s[0]);
      EscapeUnreserved(s[1..]);
      assert [s[0]] + s[1..] == s;
    }
  }

  lemma IntToStringUnreserved(i: int)
    ensures forall k :: 0 <= k < |IntToString(i)| ==> !Reserved(IntToString(i)[k])
  {
    var s := IntToString(i);
    if i < 0 {
      var d := NatToString(-i);
      assert s == "-" + d;
      forall k | 0 <= k < |s| ensures !Reserved(s[k]) {
        if k > 0 { assert s[k] == d[k - 1]; }
      }
    }
  }

  /** Reverses `Escape`; text that `Escape` cannot have produced is refused. */
  function Unescape(s: string): Option<string>
  {
    if s == [] then Some([])
    else if s[0] == '+' then
      match Unescape(s[1..])
      case Some(t) => Some([' '] + t)
      case None => None
    else if s[0] == '%' then
      if |s| < 3 then None
      else
        match UnescapeCode(s[1], s[2])
        case None => None
        case Some(c) =>
          match Unescape(s[3..])
          case Some(t) => Some([c] + t)
          case None => None
    else if Reserved(s[0]) then None
    else
      match Unescape(s[1..])
      case Some(t) => Some([s[0]] + t)
      case None => None
  }

  lemma UnescapeCharThenRest(c: char, rest: string)
    ensures Unescape(EscapeChar(c) + rest) ==
      match Unescape(rest)
      case Some(t) => Some([c] + t)
      case None => None
  {
    var e := EscapeChar(c);
    if |e| == 3 {
      assert (e + rest)[3..] == rest;
    } else {
      assert (e + rest)[1..] == rest;
    }
  }

  lemma {:induction false} EscapeRoundTrip(s: string)
    ensures Unescape(Escape(s)) == Some(s)
  {
    if s != [] {
      EscapeRoundTrip(s[1..]);
      UnescapeCharThenRest(s[0], Escape(s[1..]));
      assert [s[0]] + s[1..] == s;
    }
  }

  // ------------------------------------------------------------- splitting

  function IndexOf(s: string, c: char): (i: nat)
    requires c in s
    ensures i < |s| && s[i] == c && c !in s[..i]
  {
    if s[0] == c then 0 else 1 + IndexOf(s[1..], c)
  }

  /** Splits `s` at every occurrence of `sep`; there is always one piece more than separators. */
  function Split(s: string, sep: char): (pieces: seq<string>)
    ensures |pieces| > 0
    decreases |s|
  {
    if sep in s then
      var i := IndexOf(s, sep);
      [s[..i]] + Split(s[i + 1..], sep)
    else
      [s]
  }

  /** No piece of a split holds the separator. */
  lemma {:induction false} SplitPiecesPlain(s: string, sep: char)
    ensures forall k :: 0 <= k < |Split(s, sep)| ==> sep !in Split(s, sep)[k]
    decreases |s|
  {
    if sep in s {
      var i := IndexOf(s, sep);
      SplitPiecesPlain(s[i + 1..], sep);
      assert Split(s, sep) == [s[..i]] + Split(s[i + 1..], sep);
    }
  }

  lemma {:induction false} IndexOfPrefix(x: string, c: char, rest: string)
    requires c !in x
    ensures c in x + [c] + rest && IndexOf(x + [c] + rest, c) == |x|
  {
    var s := x + [c] + rest;
    assert s[|x|] == c;
    if x != [] {
      assert s[1..] == x[1..] + [c] + rest;
      IndexOfPrefix(x[1..], c, rest);
    }
  }

  lemma SplitPrefix(x: string, sep: char, rest: string)
    requires sep !in x
    ensures Split(x + [sep] + rest, sep) == [x] + Split(rest, sep)
  {
    var s := x + [sep] + rest;
    IndexOfPrefix(x, sep, rest);
    assert s[..|x|] == x;
    assert s[|x| + 1..] == rest;
  }

  /** Two separator-free texts joined by the separator split back into the two. */
  lemma SplitJoin(a: string, b: string, sep: char)
    requires sep !in a && sep !in b
    ensures Split(a + [sep] + b, sep) == [a, b]
  {
    SplitPrefix(a, sep, b);
  }

  /** A leading separator splits off an empty first piece. */
  lemma SplitLeading(tail: string, sep: char)
    ensures Split([sep] + tail, sep) == [""] + Split(tail, sep)
  {
    SplitPrefix("", sep, tail);
    assert "" + [sep] + tail == [sep] + tail;
  }

  // ------------------------------------------------------------- pair lists

  type Params = seq<(string, string)>

  function PairText(p: (string, string)): (s: string)
    ensures '&' !in s
  {
    Escape(p.0) + "=" + Escape(p.1)
  }

  /** `k1=v1&k2=v2…`: the text form of an ordered list of pairs. */
  function Serialize(ps: Params): (s: string)
    ensures ps != [] ==> '=' in s
    ensures ps == [] ==> s == ""
  {
    if ps == [] then ""
    else if |ps| == 1 then PairText(ps[0])
    else
      assert (PairText(ps[0]) + "&" + Serialize(ps[1..]))[|Escape(ps[0].0)|] == '=';
      PairText(ps[0]) + "&" + Serialize(ps[1..])
  }

  function ParsePair(segment: string): Option<(string, string)>
  {
    var parts := Split(segment, '=');
    if |parts| != 2 then None
    else
      match (Unescape(parts[0]), Unescape(parts[1]))
      case (Some(k), Some(v)) => Some((k, v))
      case _ => None
  }

  function ParseSegments(segments: seq<string>): Option<Params>
  {
    if segments == [] then Some([])
    else
      match (ParsePair(segments[0]), ParseSegments(segments[1..]))
      case (Some(p), Some(ps)) => Some([p] + ps)
      case _ => None
  }

  /** Reads a pair list back; text that `Serialize` cannot produce is refused. */
  function Parse(text: string): Option<Params>
  {
    if text == "" then Some([]) else ParseSegments(Split(text, '&'))
  }

  /** A single pair whose texts need no escaping is written as `key=value`. */
  lemma SerializePlainPair(key: string, value: string)
    requires Escape(key) == key && Escape(value) == value
    ensures Serialize([(key, value)]) == key + "=" + value
  {
    assert Serialize([(key, value)]) == PairText((key, value));
  }

  lemma PairRoundTrip(p: (string, string))
    ensures ParsePair(PairText(p)) == Some(p)
  {
    var k, v := Escape(p.0), Escape(p.1);
    assert '=' !in k;
    assert '=' !in v;
    SplitPrefix(k, '=', v);
    assert PairText(p) == k + ['='] + v;
    EscapeRoundTrip(p.0);
    EscapeRoundTrip(p.1);
  }

  function PairTexts(ps: Params): seq<string>
  {
    if ps == [] then [] else [PairText(ps[0])] + PairTexts(ps[1..])
  }

  lemma {:induction false} SplitSerialize(ps: Params)
    requires ps != []
    ensures Split(Serialize(ps), '&') == PairTexts(ps)
  {
    if |ps| == 1 {
      assert '&' !in PairText(ps[0]);
    } else {
      SplitSerialize(ps[1..]);
      SplitPrefix(PairText(ps[0]), '&', Serialize(ps[1..]));
      assert Serialize(ps) == PairText(ps[0]) + ['&'] + Serialize(ps[1..]);
    }
  }

  lemma {:induction false} ParseSegmentsOfPairs(ps: Params)
    ensures ParseSegments(PairTexts(ps)) == Some(ps)
  {
    if ps != [] {
      var segs := PairTexts(ps);
      PairRoundTrip(ps[0]);
      ParseSegmentsOfPairs(ps[1..]);
      assert segs[1..] == PairTexts(ps[1..]);
      assert [ps[0]] + ps[1..] == ps;
    }
  }

  /** Every pair list is read back exactly as it was serialised: keys, values and order. */
  lemma SerializeRoundTrip(ps: Params)
    ensures Parse(Serialize(ps)) == Some(ps)
  {
    if ps != [] {
      SplitSerialize(ps);
      ParseSegmentsOfPairs(ps);
    }
  }

  // ------------------------------------------------------------- lookups

  /** The value of the first pair named `key`, as a server reading the list would see it. */
  function Lookup(ps: Params, key: string): Option<string>
  {
    if ps == [] then None
    else if ps[0].0 == key then Some(ps[0].1)
    else Lookup(ps[1..], key)
  }

  /** Pairs with other names before the first `key` do not change what is read for it. */
  lemma {:induction false} LookupSkip(a: Params, b: Params, key: string)
    requires forall i :: 0 <= i < |a| ==> a[i].0 != key
    ensures Lookup(a + b, key) == Lookup(b, key)
  {
    if a != [] {
      assert (a + b)[0] == a[0];
      assert (a + b)[1..] == a[1..] + b;
      LookupSkip(a[1..], b, key);
    } else {
      assert a + b == b;
    }
  }

  /** Every pair named `key` removed, the others kept in order. */
  function RemoveKey(ps: Params, key: string): Params
  {
    if ps == [] then []
    else if ps[0].0 == key then RemoveKey(ps[1..], key)
    else [ps[0]] + RemoveKey(ps[1..], key)
  }

  /**
   * `URLSearchParams.set`: the first pair named `key` takes the new value and
   * the later ones are dropped; with no such pair, one is appended.
   */
  function SetParam(ps: Params, key: string, value: string): Params
  {
    if ps == [] then [(key, value)]
    else if ps[0].0 == key then [(key, value)] + RemoveKey(ps[1..], key)
    else [ps[0]] + SetParam(ps[1..], key, value)
  }

  /** `set` of a name the list does not hold appends the pair at the end. */
  lemma {:induction false} SetParamAppends(ps: Params, key: string, value: string)
    requires forall i :: 0 <= i < |ps| ==> ps[i].0 != key
    ensures SetParam(ps, key, value) == ps + [(key, value)]
  {
    if ps != [] {
      SetParamAppends(ps[1..], key, value);
      assert ps == [ps[0]] + ps[1..];
    }
  }

  lemma {:induction false} RemoveKeyLookup(ps: Params, key: string, other: string)
    ensures Lookup(RemoveKey(ps, key), key) == None
    ensures other != key ==> Lookup(RemoveKey(ps, key), other) == Lookup(ps, other)
  {
    if ps != [] {
      RemoveKeyLookup(ps[1..], key, other);
    }
  }

  /** After `set`, the key reads back the value just set and every other key reads as before. */
  lemma {:induction false} SetParamLookup(ps: Params, key: string, value: string, other: string)
    ensures Lookup(SetParam(ps, key, value), key) == Some(value)
    ensures other != key ==> Lookup(SetParam(ps, key, value), other) == Lookup(ps, other)
  {
    if ps != [] && ps[0].0 == key {
      RemoveKeyLookup(ps[1..], key, other);
    } else if ps != [] {
      SetParamLookup(ps[1..], key, value, other);
    }
  }
}
