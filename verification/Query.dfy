/** The gateway's query filter: a client-supplied `key` parameter is dropped,
    everything else goes on byte for byte. Characters stand for bytes. */
module Query {
  import opened Wrappers
  import opened Text

  // ---- Percent-decoding, section 2.1 of RFC 3986, and '+' for a space ----

  predicate IsHex(c: char) {
    '0' <= c <= '9' || 'a' <= c <= 'f' || 'A' <= c <= 'F'
  }

  function HexValue(c: char): (v: nat)
    requires IsHex(c)
    ensures v < 16 && (c == "0123456789abcdef"[v] || c == "0123456789ABCDEF"[v])
  {
    if c <= '9' then (c as int) - 48
    else if c <= 'F' then (c as int) - 55
    else (c as int) - 87
  }

  /** url.QueryUnescape: no result when a percent sign starts no two hex digits. */
  function Unescape(s: string): Option<string> {
    if s == "" then Some("")
    else if s[0] == '%' then
      if |s| < 3 || !IsHex(s[1]) || !IsHex(s[2]) then None
      else Prepend((16 * HexValue(s[1]) + HexValue(s[2])) as char, Unescape(s[3..]))
    else Prepend(if s[0] == '+' then ' ' else s[0], Unescape(s[1..]))
  }

  function Prepend(c: char, rest: Option<string>): Option<string> {
    if rest.None? then None else Some([c] + rest.value)
  }

  /** One way to write a byte: as itself, as a plus sign, or in hex. */
  datatype Form = Plain | Plus | Hex(high: char, low: char)

  predicate Writes(f: Form, c: char) {
    match f
    case Plain => c != '%' && c != '+'
    case Plus => c == ' '
    case Hex(high, low) => IsHex(high) && IsHex(low) && c as int == 16 * HexValue(high) + HexValue(low)
  }

  predicate Spells(forms: seq<Form>, s: string) {
    |forms| == |s| && forall i :: 0 <= i < |s| ==> Writes(forms[i], s[i])
  }

  function Written(f: Form, c: char): string {
    match f
    case Plain => [c]
    case Plus => "+"
    case Hex(high, low) => ['%', high, low]
  }

  function Encode(s: string, forms: seq<Form>): string
    requires |forms| == |s|
  {
    if s == "" then "" else Written(forms[0], s[0]) + Encode(s[1..], forms[1..])
  }

  /** Every spelling of a text decodes to it. */
  lemma {:induction false} UnescapeOfEncode(s: string, forms: seq<Form>)
    requires Spells(forms, s)
    ensures Unescape(Encode(s, forms)) == Some(s)
  {
    if s != "" {
      UnescapeOfEncode(s[1..], forms[1..]);
      var e := Encode(s, forms);
      assert s == [s[0]] + s[1..];
      match forms[0]
      case Plain => assert e[1..] == Encode(s[1..], forms[1..]);
      case Plus => assert e[1..] == Encode(s[1..], forms[1..]);
      case Hex(high, low) => assert e[3..] == Encode(s[1..], forms[1..]);
    }
  }

  /** And what decodes to a text is one of its spellings. */
  lemma {:induction false} EncodeOfUnescape(e: string) returns (forms: seq<Form>)
    requires Unescape(e).Some?
    ensures Spells(forms, Unescape(e).value) && e == Encode(Unescape(e).value, forms)
  {
    if e == "" {
      forms := [];
    } else {
      var f := if e[0] == '%' then Hex(e[1], e[2]) else if e[0] == '+' then Plus else Plain;
      var tail := if e[0] == '%' then e[3..] else e[1..];
      var rest := EncodeOfUnescape(tail);
      forms := [f] + rest;
      var s := Unescape(e).value;
      assert s[1..] == Unescape(tail).value && forms[1..] == rest;
    }
  }

  // ---- The filter ----

  /** strings.Cut at the first equals sign: the part before it. */
  function Name(part: string): string {
    if part == "" || part[0] == '=' then "" else [part[0]] + Name(part[1..])
  }

  lemma {:induction false} NameOfNamed(name: string, rest: string)
    requires '=' !in name && (rest == "" || rest[0] == '=')
    ensures Name(name + rest) == name
  {
    if name == "" {
      assert name + rest == rest;
    } else {
      assert (name + rest)[1..] == name[1..] + rest;
      NameOfNamed(name[1..], rest);
    }
  }

  lemma {:induction false} RestOfNamed(part: string) returns (rest: string)
    ensures part == Name(part) + rest && (rest == "" || rest[0] == '=')
  {
    if part == "" || part[0] == '=' {
      rest := part;
    } else {
      rest := RestOfNamed(part[1..]);
      assert part == [part[0]] + part[1..];
    }
  }

  const KEY := "key"

  /** The parameter's decoded name is `key`. */
  predicate IsKey(part: string) {
    (if Unescape(Name(part)).Some? then Unescape(Name(part)).value else Name(part)) == KEY
  }

  /** The parameters that are not `key`, in order. */
  function Others(parts: seq<string>): seq<string> {
    FlatMap(parts, OtherThanKey())
  }

  function OtherThanKey(): string -> seq<string> {
    (part: string) => if IsKey(part) then [] else [part]
  }

  /** Each parameter is judged by itself, and those that stay keep their order. */
  lemma EachIsJudgedAlone(a: seq<string>, part: string, b: seq<string>)
    ensures Others(a + [part] + b) == Others(a) + (if IsKey(part) then [] else [part]) + Others(b)
    ensures Others([]) == []
  {
    FlatMapConcat(a + [part], b, OtherThanKey());
    FlatMapConcat(a, [part], OtherThanKey());
    FlatMapOne(part, OtherThanKey());
  }

  /** withoutKeyParam. */
  method WithoutKeyParam(rawQuery: string) returns (query: string)
    ensures query == Filtered(rawQuery)
  {
    if rawQuery == "" { return ""; }
    var kept := [];
    var parts := Split(rawQuery, '&');
    for i := 0 to |parts|
      invariant kept == Others(parts[..i])
    {
      FlatMapNext(parts, i, OtherThanKey());
      var name := Name(parts[i]);
      var unescaped := Unescape(name);
      if unescaped.Some? { name := unescaped.value; }
      if name == KEY { continue; }
      kept := kept + [parts[i]];
    }
    assert parts[..|parts|] == parts;
    return Join(kept, '&');
  }

  function Filtered(rawQuery: string): string {
    if rawQuery == "" then "" else Join(Others(Split(rawQuery, '&')), '&')
  }

  // ---- What it leaves ----

  lemma {:induction false} OthersAreParts(parts: seq<string>, k: nat) returns (i: nat)
    requires k < |Others(parts)|
    ensures i < |parts| && parts[i] == Others(parts)[k] && !IsKey(parts[i])
  {
    var n := |parts| - 1;
    if k < |Others(parts[..n])| { i := OthersAreParts(parts[..n], k); } else { i := n; }
  }

  /** The parameters of the result are those of the query that are not `key`,
      whole and in order; an empty result has the one empty parameter. */
  lemma ParametersLeft(rawQuery: string)
    ensures var others := Others(Split(rawQuery, '&'));
            Split(Filtered(rawQuery), '&') == if others == [] then [""] else others
  {
    var parts := Split(rawQuery, '&');
    var others := Others(parts);
    if rawQuery == "" {
      FlatMapOne("", OtherThanKey());
    } else if others != [] {
      PiecesHaveNoSeparator(rawQuery, '&');
      forall k | 0 <= k < |others| ensures '&' !in others[k] {
        var i := OthersAreParts(parts, k);
      }
      SplitOfJoin(others, '&');
    }
  }

  /** No parameter that decodes to `key` is left. */
  lemma NoKeyIsLeft(rawQuery: string, k: nat)
    requires k < |Split(Filtered(rawQuery), '&')|
    ensures !IsKey(Split(Filtered(rawQuery), '&')[k])
  {
    ParametersLeft(rawQuery);
    if Others(Split(rawQuery, '&')) != [] {
      var i := OthersAreParts(Split(rawQuery, '&'), k);
    }
  }

  lemma {:induction false} OthersWithoutKeys(parts: seq<string>)
    ensures |Others(parts)| <= |parts|
    ensures Others(parts) == parts <==> forall i :: 0 <= i < |parts| ==> !IsKey(parts[i])
  {
    if parts != [] {
      var n := |parts| - 1;
      OthersWithoutKeys(parts[..n]);
      assert parts == parts[..n] + [parts[n]];
      if Others(parts) == parts { assert Others(parts[..n]) == parts[..n]; }
    }
  }

  /** The query is unchanged exactly when it has no `key` parameter. */
  lemma UnchangedExactlyWithoutKey(rawQuery: string)
    ensures Filtered(rawQuery) == rawQuery <==>
            forall i :: 0 <= i < |Split(rawQuery, '&')| ==> !IsKey(Split(rawQuery, '&')[i])
  {
    var parts := Split(rawQuery, '&');
    OthersWithoutKeys(parts);
    JoinOfSplit(rawQuery, '&');
    if Filtered(rawQuery) == rawQuery {
      forall k | 0 <= k < |parts| ensures !IsKey(parts[k]) { NoKeyIsLeft(rawQuery, k); }
    }
  }

  /** Filtering twice is filtering once. */
  lemma FilterIsIdempotent(rawQuery: string)
    ensures Filtered(Filtered(rawQuery)) == Filtered(rawQuery)
  {
    var once := Filtered(rawQuery);
    forall k | 0 <= k < |Split(once, '&')| ensures !IsKey(Split(once, '&')[k]) { NoKeyIsLeft(rawQuery, k); }
    UnchangedExactlyWithoutKey(once);
  }

  lemma KeyDecodesToItself()
    ensures Unescape(KEY) == Some(KEY)
  {
    var forms := [Plain, Plain, Plain];
    assert Spells(forms, KEY);
    UnescapeOfEncode(KEY, forms);
    assert KEY[1..] == "ey" && KEY[1..][1..] == "y" && KEY[1..][1..][1..] == "";
    assert Encode(KEY, forms) == KEY;
  }

  lemma {:induction false} SpellingHasNoEquals(s: string, forms: seq<Form>)
    requires Spells(forms, s) && '=' !in s
    ensures '=' !in Encode(s, forms)
  {
    if s != "" {
      SpellingHasNoEquals(s[1..], forms[1..]);
      assert Writes(forms[0], s[0]);
    }
  }

  /** A parameter is dropped exactly when what stands before its first equals sign,
      or all of it, is some spelling of `key`: each letter as itself or in hex. */
  lemma DroppedExactlyWhenSpelledKey(part: string)
    ensures IsKey(part)
            <==> exists forms, rest :: Spells(forms, KEY) && part == Encode(KEY, forms) + rest
                                       && (rest == "" || rest[0] == '=')
  {
    KeyDecodesToItself();
    if IsKey(part) {
      var forms := EncodeOfUnescape(Name(part));
      var rest := RestOfNamed(part);
      assert Spells(forms, KEY) && part == Encode(KEY, forms) + rest;
    }
    if forms, rest :|
      Spells(forms, KEY) && part == Encode(KEY, forms) + rest && (rest == "" || rest[0] == '=')
    {
      SpellingHasNoEquals(KEY, forms);
      NameOfNamed(Encode(KEY, forms), rest);
      UnescapeOfEncode(KEY, forms);
    }
  }
}
