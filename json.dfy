/**
  JSON values as serde_json's `Value` holds them, the outcome of parsing a body
  of text, the compact rendering `Value`'s `Display` produces, and the
  building blocks of serde's derived struct decoders: required fields,
  `#[serde(default)]` fields, `Option` fields and field aliases.
*/
module Json {
  import opened Wrappers
  import opened Text
  import opened Ints

  /** A JSON value; numbers are integers (floating point is not modelled). */
  datatype Json =
    | JNull
    | JBool(b: bool)
    | JNumber(n: int)
    | JString(s: string)
    | JArray(items: seq<Json>)
    | JObject(fields: map<string, Json>)

  /** The result of `serde_json::from_str` on a text: a value, or a syntax error with its message. */
  datatype JsonParse = Parsed(value: Json) | SyntaxError(reason: string)

  /** The result of decoding a typed record out of a value: the record, or serde's error message. */
  datatype Decoded<+T> = Decoded(value: T) | Malformed(reason: string)
  {
    predicate IsFailure() { Malformed? }

    function PropagateFailure<U>(): Decoded<U>
      requires Malformed?
    {
      Malformed(reason)
    }

    function Extract(): T
      requires Decoded?
    {
      value
    }
  }

  // ---------------------------------------------------------------- compact rendering

  /** Hexadecimal digit of 0 <= d < 16, lower case as serde_json writes it. */
  function HexDigit(d: nat): char
    requires d < 16
  {
    if d < 10 then Digit(d) else (d - 10 + 'a' as int) as char
  }

  /** serde_json's escape of one character inside a string literal. */
  function EscapeChar(c: char): string
  {
    if c == '"' then "\\\""
    else if c == '\\' then "\\\\"
    else if c == '\n' then "\\n"
    else if c == '\r' then "\\r"
    else if c == '\t' then "\\t"
    else if c == '\U{8}' then "\\b"
    else if c == '\U{C}' then "\\f"
    else if c < ' ' then "\\u00" + [HexDigit(c as int / 16), HexDigit(c as int % 16)]
    else [c]
  }

  function Escape(s: string): string
    decreases |s|
  {
    if s == [] then "" else EscapeChar(s[0]) + Escape(s[1..])
  }

  function Quote(s: string): string
  {
    "\"" + Escape(s) + "\""
  }

  /**
    The compact text `{}` prints for a `Value`: no whitespace, object members
    in ascending key order (serde_json's default map is ordered by key).
  */
  function Display(j: Json): (r: string)
    ensures |r| > 0
    ensures j.JString? <==> r[0] == '"'
    ensures j.JArray? <==> r[0] == '['
    ensures j.JObject? <==> r[0] == '{'
    decreases j
  {
    match j
    case JNull => "null"
    case JBool(b) => if b then "true" else "false"
    case JNumber(n) => IntText(n)
    case JString(s) => Quote(s)
    case JArray(a) =>
      "[" + Join(seq(|a|, i requires 0 <= i < |a| => Display(a[i])), ",") + "]"
    case JObject(m) =>
      var ks := SortedKeys(m.Keys);
      "{" + Join(seq(|ks|, i requires 0 <= i < |ks| => Quote(ks[i]) + ":" + Display(m[ks[i]])), ",") + "}"
  }

  // ---------------------------------------------------------------- serde messages

  /** How serde names an unexpected value in an "invalid type" message. */
  function Unexpected(j: Json): string
  {
    match j
    case JNull => "null"
    case JBool(b) => "boolean `" + (if b then "true" else "false") + "`"
    case JNumber(n) => "integer `" + IntText(n) + "`"
    case JString(s) => "string " + Quote(s)
    case JArray(_) => "sequence"
    case JObject(_) => "map"
  }

  function InvalidType(j: Json, expected: string): string
  {
    "invalid type: " + Unexpected(j) + ", expected " + expected
  }

  function MissingField(key: string): string
  {
    "missing field `" + key + "`"
  }

  function DuplicateField(key: string): string
  {
    "duplicate field `" + key + "`"
  }

  // ---------------------------------------------------------------- value decoders

  function AsString(j: Json): (r: Decoded<string>)
    ensures r.Decoded? <==> j.JString?
    ensures r.Decoded? ==> j == JString(r.value)
  {
    if j.JString? then Decoded(j.s) else Malformed(InvalidType(j, "a string"))
  }

  function AsBool(j: Json): (r: Decoded<bool>)
    ensures r.Decoded? <==> j.JBool?
    ensures r.Decoded? ==> j == JBool(r.value)
  {
    if j.JBool? then Decoded(j.b) else Malformed(InvalidType(j, "a boolean"))
  }

  function InvalidValue(n: int, expected: string): string
  {
    "invalid value: integer `" + IntText(n) + "`, expected " + expected
  }

  function AsI64(j: Json): (r: Decoded<i64>)
    ensures r.Decoded? <==> j.JNumber? && InI64(j.n)
    ensures r.Decoded? ==> j == JNumber(r.value)
  {
    match j
    case JNumber(n) => if InI64(n) then Decoded(n as i64) else Malformed(InvalidValue(n, "i64"))
    case _ => Malformed(InvalidType(j, "i64"))
  }

  function AsU8(j: Json): (r: Decoded<u8>)
    ensures r.Decoded? <==> j.JNumber? && 0 <= j.n < 0x100
    ensures r.Decoded? ==> j == JNumber(r.value)
  {
    match j
    case JNumber(n) => if 0 <= n < 0x100 then Decoded(n as u8) else Malformed(InvalidValue(n, "u8"))
    case _ => Malformed(InvalidType(j, "u8"))
  }

  /** Decodes every element with `dec`; the first failure is the result. */
  function DecodeAll<T>(xs: seq<Json>, dec: Json -> Decoded<T>): (r: Decoded<seq<T>>)
    ensures r.Decoded? <==> forall i :: 0 <= i < |xs| ==> dec(xs[i]).Decoded?
    ensures r.Decoded? ==> |r.value| == |xs| && forall i :: 0 <= i < |xs| ==> dec(xs[i]) == Decoded(r.value[i])
    decreases |xs|
  {
    if xs == [] then Decoded([])
    else
      match dec(xs[0])
      case Malformed(reason) => Malformed(reason)
      case Decoded(x) =>
        var rest := DecodeAll(xs[1..], dec);
        assert forall i :: 1 <= i < |xs| ==> xs[i] == xs[1..][i - 1];
        if rest.Malformed? then Malformed(rest.reason) else Decoded([x] + rest.value)
  }

  /** A `Vec<T>`: a JSON array whose elements all decode. */
  function AsSeq<T>(j: Json, dec: Json -> Decoded<T>): (r: Decoded<seq<T>>)
    ensures r.Decoded? ==> j.JArray? && |r.value| == |j.items|
  {
    if j.JArray? then DecodeAll(j.items, dec) else Malformed(InvalidType(j, "a sequence"))
  }

  function AsStrings(j: Json): Decoded<seq<string>>
  {
    AsSeq(j, AsString)
  }

  /** A `HashMap<String, String>`: a JSON object whose values are all strings. */
  function AsStringMap(j: Json): (r: Decoded<map<string, string>>)
    ensures r.Decoded? ==> j.JObject? && r.value.Keys == j.fields.Keys
    ensures r.Decoded? ==> forall k :: k in r.value ==> j.fields[k] == JString(r.value[k])
  {
    if !j.JObject? then Malformed(InvalidType(j, "a map"))
    else
      var m := j.fields;
      var bad := set k | k in m && !m[k].JString?;
      if bad == {} then
        assert forall k :: k in m ==> m[k].JString? by {
          forall k | k in m ensures m[k].JString? { assert k !in bad; }
        }
        Decoded(map k | k in m :: m[k].s)
      else Malformed(InvalidType(m[Least(bad)], "a string"))
  }

  /** A `HashMap<String, Value>`: any JSON object. */
  function AsValueMap(j: Json): (r: Decoded<map<string, Json>>)
    ensures r.Decoded? <==> j.JObject?
    ensures r.Decoded? ==> r.value == j.fields
  {
    if j.JObject? then Decoded(j.fields) else Malformed(InvalidType(j, "a map"))
  }

  // ---------------------------------------------------------------- struct fields

  /**
    The value a derived decoder sees for a field named `key` that also accepts
    `alias`: absent, the value under whichever name is present, or a duplicate
    field error when both names are present.
  */
  function Lookup(m: map<string, Json>, key: string, alias: Option<string>): (r: Decoded<Option<Json>>)
    ensures r.Malformed? <==> alias.Some? && alias.value != key && key in m && alias.value in m
    ensures r == Decoded(None) <==> key !in m && (alias.None? || alias.value !in m)
    ensures key in m && r.Decoded? ==> r.value == Some(m[key])
    ensures key !in m && alias.Some? && alias.value in m ==> r == Decoded(Some(m[alias.value]))
  {
    if alias.Some? && alias.value != key && key in m && alias.value in m then Malformed(DuplicateField(key))
    else if key in m then Decoded(Some(m[key]))
    else if alias.Some? && alias.value in m then Decoded(Some(m[alias.value]))
    else Decoded(None)
  }

  /** A field without a default: it must be present and decode. */
  function Required<T>(m: map<string, Json>, key: string, dec: Json -> Decoded<T>): (r: Decoded<T>)
    ensures key !in m ==> r == Malformed(MissingField(key))
    ensures key in m ==> r == dec(m[key])
  {
    if key in m then dec(m[key]) else Malformed(MissingField(key))
  }

  /** Neither the field's key nor its alias, if it has one, is in the record. */
  predicate Absent(m: map<string, Json>, key: string, alias: Option<string>)
  {
    key !in m && (alias.None? || alias.value !in m)
  }

  /** A `#[serde(default)]` field, possibly with an alias: absent means `dflt`. */
  function Defaulted<T>(m: map<string, Json>, key: string, alias: Option<string>, dflt: T, dec: Json -> Decoded<T>): (r: Decoded<T>)
    ensures Absent(m, key, alias) ==> r == Decoded(dflt)
  {
    var found :- Lookup(m, key, alias);
    if found.Some? then dec(found.value) else Decoded(dflt)
  }

  /** An `Option<T>` field: absent or `null` is `None`, anything else must decode as `T`. */
  function Optional<T>(m: map<string, Json>, key: string, dec: Json -> Decoded<T>): (r: Decoded<Option<T>>)
    ensures key !in m || m[key] == JNull ==> r == Decoded(None)
  {
    if key !in m || m[key] == JNull then Decoded(None)
    else
      var v :- dec(m[key]);
      Decoded(Some(v))
  }

  /** A defaulted field present under its primary name, with its alias absent, decodes that value. */
  lemma DefaultedPresent<T>(m: map<string, Json>, key: string, alias: Option<string>, dflt: T, dec: Json -> Decoded<T>)
    requires key in m && (alias.None? || alias.value !in m)
    ensures Defaulted(m, key, alias, dflt, dec) == dec(m[key])
  {
  }

  /** Two objects agree on `key`: both lack it, or both hold the same value under it. */
  predicate SameField(m1: map<string, Json>, m2: map<string, Json>, key: string)
  {
    (key in m1 <==> key in m2) && (key in m1 ==> m1[key] == m2[key])
  }

  /** A required field reads only its own key. */
  lemma RequiredLocal<T>(m1: map<string, Json>, m2: map<string, Json>, key: string, dec: Json -> Decoded<T>)
    requires SameField(m1, m2, key)
    ensures Required(m1, key, dec) == Required(m2, key, dec)
  {
  }

  /** An optional field reads only its own key. */
  lemma OptionalLocal<T>(m1: map<string, Json>, m2: map<string, Json>, key: string, dec: Json -> Decoded<T>)
    requires SameField(m1, m2, key)
    ensures Optional(m1, key, dec) == Optional(m2, key, dec)
  {
  }

  /** A defaulted field reads only its own key and its alias. */
  lemma DefaultedLocal<T>(m1: map<string, Json>, m2: map<string, Json>, key: string, alias: Option<string>, dflt: T, dec: Json -> Decoded<T>)
    requires SameField(m1, m2, key) && (alias.Some? ==> SameField(m1, m2, alias.value))
    ensures Defaulted(m1, key, alias, dflt, dec) == Defaulted(m2, key, alias, dflt, dec)
  {
  }

  /** A value given under the alias reads as the same value given under the primary name. */
  lemma DefaultedAlias<T>(m1: map<string, Json>, m2: map<string, Json>, key: string, alias: string, dflt: T, dec: Json -> Decoded<T>)
    requires key !in m1 && alias in m1 && key in m2 && alias !in m2 && m1[alias] == m2[key]
    ensures Defaulted(m1, key, Some(alias), dflt, dec) == Defaulted(m2, key, Some(alias), dflt, dec)
  {
  }

  // ---------------------------------------------------------------- encoding

  function OptString(o: Option<string>): Json
  {
    if o.Some? then JString(o.value) else JNull
  }

  function Strings(xs: seq<string>): (r: Json)
    ensures r.JArray? && |r.items| == |xs| && forall i :: 0 <= i < |xs| ==> r.items[i] == JString(xs[i])
  {
    JArray(seq(|xs|, i requires 0 <= i < |xs| => JString(xs[i])))
  }

  /** The members `key: value` for an optional value, or none at all (`skip_serializing_if = "Option::is_none"`). */
  function Entry(key: string, o: Option<Json>): (r: map<string, Json>)
    ensures key in r <==> o.Some?
    ensures r.Keys <= {key}
    ensures o.Some? ==> r[key] == o.value
  {
    if o.Some? then map[key := o.value] else map[]
  }

  /** An optional string value as a member value. */
  function OptStr(o: Option<string>): (r: Option<Json>)
    ensures r.Some? <==> o.Some?
    ensures o.Some? ==> r.value == JString(o.value)
  {
    if o.Some? then Some(JString(o.value)) else None
  }

  function OptBool(o: Option<bool>): (r: Option<Json>)
    ensures r.Some? <==> o.Some?
    ensures o.Some? ==> r.value == JBool(o.value)
  {
    if o.Some? then Some(JBool(o.value)) else None
  }

  function OptU8(o: Option<u8>): (r: Option<Json>)
    ensures r.Some? <==> o.Some?
    ensures o.Some? ==> r.value == JNumber(o.value)
  {
    if o.Some? then Some(JNumber(o.value)) else None
  }

  function OptStrings(o: Option<seq<string>>): (r: Option<Json>)
    ensures r.Some? <==> o.Some?
    ensures o.Some? ==> r.value == Strings(o.value)
  {
    if o.Some? then Some(Strings(o.value)) else None
  }

  /** Object `m` holds `o` under `key`, or lacks `key` when `o` is `None`. */
  predicate Carries(m: map<string, Json>, key: string, o: Option<Json>)
  {
    (key in m <==> o.Some?) && (o.Some? ==> m[key] == o.value)
  }

  /** No two members share a name. */
  predicate DistinctKeys(fs: seq<(string, Option<Json>)>)
  {
    forall i, j :: 0 <= i < j < |fs| ==> fs[i].0 != fs[j].0
  }

  /**
    The object a derived `Serialize` writes for a struct whose members are
    `fs`, in declaration order; a member whose value is `None` is skipped.
  */
  function Members(fs: seq<(string, Option<Json>)>): map<string, Json>
    decreases |fs|
  {
    if fs == [] then map[] else Entry(fs[0].0, fs[0].1) + Members(fs[1..])
  }

  /** `m` with member `key` set to `o`, or removed when `o` is `None`. */
  function SetMember(m: map<string, Json>, key: string, o: Option<Json>): (r: map<string, Json>)
    ensures key in r <==> o.Some?
    ensures forall k :: k != key ==> (k in r <==> k in m)
  {
    if o.Some? then m[key := o.value] else m - {key}
  }

  /** Members without values write nothing. */
  lemma {:induction false} MembersAllNone(fs: seq<(string, Option<Json>)>)
    requires forall i :: 0 <= i < |fs| ==> fs[i].1.None?
    ensures Members(fs) == map[]
    decreases |fs|
  {
    if fs != [] {
      MembersAllNone(fs[1..]);
    }
  }

  /** `m` with `key` set when `o` holds a value (`if let Some(v) = o { m[key] = v }`). */
  function PutIfSome(m: map<string, Json>, key: string, o: Option<Json>): map<string, Json>
  {
    if o.Some? then m[key := o.value] else m
  }

  /** Writing one more member after the others sets it on top of them. */
  lemma {:induction false} MembersSnoc(fs: seq<(string, Option<Json>)>, key: string, o: Option<Json>)
    ensures Members(fs + [(key, o)]) == PutIfSome(Members(fs), key, o)
    decreases |fs|
  {
    if fs == [] {
      assert [(key, o)][1..] == [];
    } else {
      assert (fs + [(key, o)])[1..] == fs[1..] + [(key, o)];
      MembersSnoc(fs[1..], key, o);
    }
  }

  /** Only the members named in `fs` can appear. */
  lemma {:induction false} MembersOnly(fs: seq<(string, Option<Json>)>, k: string)
    requires forall i :: 0 <= i < |fs| ==> fs[i].0 != k
    ensures k !in Members(fs)
    decreases |fs|
  {
    if fs != [] {
      MembersOnly(fs[1..], k);
    }
  }

  /** With distinct names, member `i` is present exactly when it has a value, and holds that value. */
  lemma {:induction false} MembersSpec(fs: seq<(string, Option<Json>)>, i: nat)
    requires DistinctKeys(fs) && i < |fs|
    ensures fs[i].0 in Members(fs) <==> fs[i].1.Some?
    ensures fs[i].1.Some? ==> Members(fs)[fs[i].0] == fs[i].1.value
    decreases |fs|
  {
    if i == 0 {
      MembersOnly(fs[1..], fs[0].0);
    } else {
      MembersSpec(fs[1..], i - 1);
    }
  }

  /** With distinct names, replacing the value of member `i` replaces it in the object and changes nothing else. */
  lemma {:induction false} MembersReplace(fs: seq<(string, Option<Json>)>, i: nat, o: Option<Json>)
    requires DistinctKeys(fs) && i < |fs|
    ensures Members(fs[i := (fs[i].0, o)]) == SetMember(Members(fs), fs[i].0, o)
    decreases |fs|
  {
    var gs := fs[i := (fs[i].0, o)];
    if i == 0 {
      assert gs[1..] == fs[1..];
      MembersOnly(fs[1..], fs[0].0);
    } else {
      assert gs[1..] == fs[1..][i - 1 := (fs[i].0, o)];
      MembersReplace(fs[1..], i - 1, o);
      SetMemberPastEntry(fs[0].0, fs[0].1, Members(fs[1..]), fs[i].0, o);
    }
  }

  /** Setting a member commutes with adding a member of another name in front. */
  lemma SetMemberPastEntry(k0: string, o0: Option<Json>, m: map<string, Json>, key: string, o: Option<Json>)
    requires k0 != key
    ensures Entry(k0, o0) + SetMember(m, key, o) == SetMember(Entry(k0, o0) + m, key, o)
  {
  }

  /** Decoding a string array back gives the strings. */
  lemma StringsRoundTrip(xs: seq<string>)
    ensures AsStrings(Strings(xs)) == Decoded(xs)
  {
    var r := AsStrings(Strings(xs));
    assert r.Decoded?;
    assert r.value == xs;
  }

  /** A `Vec<T>` serialized element by element. */
  function EncodeAll<T>(xs: seq<T>, enc: T -> Json): (r: Json)
    ensures r.JArray? && |r.items| == |xs| && forall i :: 0 <= i < |xs| ==> r.items[i] == enc(xs[i])
  {
    JArray(seq(|xs|, i requires 0 <= i < |xs| => enc(xs[i])))
  }

  /** When each element survives `enc` then `dec`, so does the whole sequence. */
  lemma EncodeAllRoundTrip<T>(xs: seq<T>, enc: T -> Json, dec: Json -> Decoded<T>)
    requires forall i :: 0 <= i < |xs| ==> dec(enc(xs[i])) == Decoded(xs[i])
    ensures AsSeq(EncodeAll(xs, enc), dec) == Decoded(xs)
  {
    var j := EncodeAll(xs, enc);
    var r := DecodeAll(j.items, dec);
    assert forall i :: 0 <= i < |xs| ==> dec(j.items[i]) == Decoded(xs[i]);
    assert r.value == xs;
  }
}
