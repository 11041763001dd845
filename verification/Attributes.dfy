// Conversion of decoded JSON documents to log attribute values: one canonical
// form per document, whatever order the keys of an object come in.
module Attributes {
  import opened Types
  import opened Sequences

  // A decoded document. Numbers keep their text.
  datatype Json =
    | Null
    | Bool(b: bool)
    | Str(s: string)
    | Number(text: string)
    | Arr(elems: seq<Json>)
    | Obj(fields: map<string, Json>)

  datatype Attribute =
    | Invalid
    | StringValue(s: string)
    | BoolValue(b: bool)
    | Int64Value(i: int64)
    | Float64Value(f: real)
    | SliceValue(elems: seq<Attribute>)
    | MapValue(entries: seq<(string, Attribute)>)

  // What the float parser makes of a number's text, if it is in range.
  type FloatParser = string -> Option<real>

  // ---- Numbers ----

  function DigitsValue(s: string): nat
    requires forall i | 0 <= i < |s| :: '0' <= s[i] <= '9'
  {
    if s == "" then 0 else 10 * DigitsValue(s[..|s| - 1]) + (s[|s| - 1] as int - '0' as int)
  }

  predicate IsDigits(s: string) {
    s != "" && forall i | 0 <= i < |s| :: '0' <= s[i] <= '9'
  }

  // strconv.ParseInt in base 10 with 64 bits: an optional sign and digits
  // whose value is in range.
  function ParseInt64(s: string): (r: Option<int64>) {
    var signed := s != "" && (s[0] == '-' || s[0] == '+');
    var digits := if signed then s[1..] else s;
    if !IsDigits(digits) then None
    else
      var magnitude: int := DigitsValue(digits);
      var value := if s[0] == '-' then -magnitude else magnitude;
      InRange(value)
  }

  function Digits(n: nat): (s: string)
    ensures IsDigits(s)
  {
    var last := [('0' as int + n % 10) as char];
    if n < 10 then last else Digits(n / 10) + last
  }

  function Decimal(i: int): string {
    if i < 0 then "-" + Digits(-i) else Digits(i)
  }

  lemma {:induction false} DigitsExact(n: nat)
    ensures DigitsValue(Digits(n)) == n
  {
    if n >= 10 {
      DigitsExact(n / 10);
      assert Digits(n)[..|Digits(n)| - 1] == Digits(n / 10);
    } else {
      assert Digits(n)[..0] == "";
    }
  }

  function InRange(i: int): Option<int64> {
    if -0x8000_0000_0000_0000 <= i < 0x8000_0000_0000_0000 then Some(i as int64) else None
  }

  lemma ParsesDigits(s: string, n: nat)
    requires IsDigits(s) && DigitsValue(s) == n
    ensures ParseInt64(s) == InRange(n)
  {
    assert s[0] != '-' && s[0] != '+';
  }

  lemma ParsesNegative(s: string, n: nat)
    requires IsDigits(s) && DigitsValue(s) == n
    ensures ParseInt64("-" + s) == InRange(-(n as int))
  {
    assert ("-" + s)[1..] == s;
  }

  // An integer written in decimal is read back exactly if it fits, and not as
  // an integer otherwise.
  lemma DecimalExact(i: int)
    ensures ParseInt64(Decimal(i)) == InRange(i)
  {
    var n: nat := if i < 0 then -i else i;
    var digits := Digits(n);
    assert DigitsValue(digits) == n by { DigitsExact(n); }
    if i < 0 {
      ParsesNegative(digits, n);
      assert Decimal(i) == "-" + digits;
    } else {
      ParsesDigits(digits, n);
      assert Decimal(i) == digits;
    }
  }

  function NumberValue(text: string, float: FloatParser): Attribute {
    match ParseInt64(text)
    case Some(i) => Int64Value(i)
    case None =>
      match float(text)
      case Some(f) => Float64Value(f)
      case None => StringValue(text)
  }

  // ---- Strings in order ----

  predicate Less(a: string, b: string) {
    b != "" && (a == "" || a[0] < b[0] || (a[0] == b[0] && Less(a[1..], b[1..])))
  }

  lemma {:induction false} LessTotal(a: string, b: string)
    ensures a == b || Less(a, b) || Less(b, a)
  {
    if a == "" || b == "" || a[0] != b[0] {
    } else {
      LessTotal(a[1..], b[1..]);
      if a[1..] == b[1..] {
        assert a == [a[0]] + a[1..] && b == [b[0]] + b[1..];
      }
    }
  }

  lemma {:induction false} LessAsymmetric(a: string, b: string)
    requires Less(a, b)
    ensures a != b && !Less(b, a)
  {
    if a == "" || a[0] != b[0] {
    } else {
      LessAsymmetric(a[1..], b[1..]);
    }
  }

  lemma {:induction false} LessTransitive(a: string, b: string, c: string)
    requires Less(a, b) && Less(b, c)
    ensures Less(a, c)
  {
    if a == "" || a[0] != b[0] || b[0] != c[0] {
    } else {
      LessTransitive(a[1..], b[1..], c[1..]);
    }
  }

  predicate StrictlyIncreasing(keys: seq<string>) {
    forall i, j | 0 <= i < j < |keys| :: Less(keys[i], keys[j])
  }

  lemma {:induction false} IncreasingUnique(a: seq<string>, b: seq<string>)
    requires StrictlyIncreasing(a) && StrictlyIncreasing(b)
    requires forall k :: k in a <==> k in b
    ensures a == b
  {
    if a == [] {
      HasAMember(b);
    } else {
      FirstAgrees(a, b);
      RestAgrees(a, b);
      IncreasingUnique(a[1..], b[1..]);
    }
  }

  lemma FirstAgrees(a: seq<string>, b: seq<string>)
    requires StrictlyIncreasing(a) && StrictlyIncreasing(b) && a != []
    requires forall k :: k in a <==> k in b
    ensures b != [] && a[0] == b[0]
  {
    assert a[0] in b && b[0] in a;
    var i :| 0 <= i < |b| && b[i] == a[0];
    var j :| 0 <= j < |a| && a[j] == b[0];
    if i > 0 && j > 0 {
      LessAsymmetric(a[0], b[0]);
    }
  }

  lemma RestAgrees(a: seq<string>, b: seq<string>)
    requires StrictlyIncreasing(a) && StrictlyIncreasing(b) && a != [] && b != [] && a[0] == b[0]
    requires forall k :: k in a <==> k in b
    ensures forall k :: k in a[1..] <==> k in b[1..]
    ensures StrictlyIncreasing(a[1..]) && StrictlyIncreasing(b[1..])
  {
    forall k ensures k in a[1..] <==> k in b[1..] {
      NotFirst(a, k);
      NotFirst(b, k);
    }
  }

  lemma NotFirst(a: seq<string>, k: string)
    requires StrictlyIncreasing(a) && a != []
    ensures k in a[1..] <==> k in a && k != a[0]
  {
    if k in a[1..] {
      var i :| 1 <= i < |a| && a[i] == k;
      LessAsymmetric(a[0], a[i]);
    }
  }

  // ---- The canonical value of a document ----

  // The value represents the document: at every object its keys are strictly
  // increasing and exactly the non-empty ones, and arrays keep their order.
  ghost predicate Represents(a: Attribute, j: Json, float: FloatParser)
    decreases j
  {
    match j
    case Null => a == StringValue("")
    case Bool(b) => a == BoolValue(b)
    case Str(s) => a == StringValue(s)
    case Number(text) => a == NumberValue(text, float)
    case Arr(elems) =>
      a.SliceValue? && |a.elems| == |elems| && forall i | 0 <= i < |elems| :: Represents(a.elems[i], elems[i], float)
    case Obj(fields) =>
      && a.MapValue?
      && StrictlyIncreasing(Keys(a.entries)) && (forall k :: k in Keys(a.entries) <==> k in fields && k != "")
      && forall i | 0 <= i < |a.entries| && a.entries[i].0 in fields ::
           Represents(a.entries[i].1, fields[a.entries[i].0], float)
  }

  function Keys(entries: seq<(string, Attribute)>): (keys: seq<string>)
    ensures |keys| == |entries| && forall i | 0 <= i < |keys| :: keys[i] == entries[i].0
  {
    seq(|entries|, i requires 0 <= i < |entries| => entries[i].0)
  }

  // No document has two.
  lemma {:induction false} CanonicalValue(a: Attribute, b: Attribute, j: Json, float: FloatParser)
    requires Represents(a, j, float) && Represents(b, j, float)
    ensures a == b
    decreases j
  {
    match j
    case Arr(elems) =>
      forall i | 0 <= i < |elems| ensures a.elems[i] == b.elems[i] {
        CanonicalValue(a.elems[i], b.elems[i], elems[i], float);
      }
      assert a.elems == b.elems;
    case Obj(fields) =>
      IncreasingUnique(Keys(a.entries), Keys(b.entries));
      forall i | 0 <= i < |a.entries| ensures a.entries[i] == b.entries[i] {
        var k := Keys(a.entries)[i];
        assert k in Keys(a.entries) && k == Keys(b.entries)[i];
        CanonicalValue(a.entries[i].1, b.entries[i].1, fields[k], float);
      }
      assert a.entries == b.entries;
    case _ =>
  }

  // ---- Numbers ----

  // An integer in decimal, with an optional sign.
  predicate IntegerText(s: string) {
    IsDigits(s) || (s != "" && (s[0] == '-' || s[0] == '+') && IsDigits(s[1..]))
  }

  predicate Fits(i: int) {
    -0x8000_0000_0000_0000 <= i < 0x8000_0000_0000_0000
  }

  // What is not logged as an integer is logged as a float if it reads as one,
  // and as its text otherwise.
  predicate LoggedAsFloatOrText(a: Attribute, text: string, float: FloatParser) {
    match float(text)
    case Some(f) => a == Float64Value(f)
    case None => a == StringValue(text)
  }

  // An integer is logged as that integer exactly if it fits in 64 bits,
  // whatever the float parser makes of its text.
  lemma IntegersLogged(i: int, a: Attribute, float: FloatParser)
    requires Represents(a, Number(Decimal(i)), float)
    ensures a.Int64Value? <==> Fits(i)
    ensures a.Int64Value? ==> a.i as int == i
    ensures !a.Int64Value? ==> LoggedAsFloatOrText(a, Decimal(i), float)
  {
    DecimalExact(i);
  }

  // Any other number is not logged as an integer.
  lemma OtherNumbersLogged(text: string, a: Attribute, float: FloatParser)
    requires Represents(a, Number(text), float) && !IntegerText(text)
    ensures LoggedAsFloatOrText(a, text, float)
  {
    assert ParseInt64(text).None?;
  }

  // ---- The conversion ----

  // The non-empty keys of an object, in whatever order it gives them.
  method CollectKeys(fields: map<string, Json>) returns (keys: seq<string>)
    ensures forall k :: k in keys <==> k in fields && k != ""
    ensures forall i, j | 0 <= i < j < |keys| :: keys[i] != keys[j]
  {
    keys := [];
    var todo := fields.Keys;
    while todo != {}
      invariant todo <= fields.Keys
      invariant forall k :: k in keys <==> k in fields && k !in todo && k != ""
      invariant forall i, j | 0 <= i < j < |keys| :: keys[i] != keys[j]
      decreases todo
    {
      var k :| k in todo;
      todo := todo - {k};
      if k != "" {
        keys := keys + [k];
      }
    }
  }

  method SortStrings(keys: seq<string>) returns (sorted: seq<string>)
    requires forall i, j | 0 <= i < j < |keys| :: keys[i] != keys[j]
    ensures StrictlyIncreasing(sorted)
    ensures forall k :: k in sorted <==> k in keys
  {
    sorted := [];
    for n := 0 to |keys|
      invariant StrictlyIncreasing(sorted)
      invariant forall k :: k in sorted <==> k in keys[..n]
    {
      assert keys[n] !in keys[..n];
      sorted := Insert(sorted, keys[n]);
      assert keys[..n + 1] == keys[..n] + [keys[n]];
    }
    assert keys[..|keys|] == keys;
  }

  lemma Inserted(sorted: seq<string>, at: nat, key: string)
    requires StrictlyIncreasing(sorted) && at <= |sorted|
    requires forall i | 0 <= i < at :: Less(sorted[i], key)
    requires forall i | at <= i < |sorted| :: Less(key, sorted[i])
    ensures StrictlyIncreasing(sorted[..at] + [key] + sorted[at..])
    ensures forall k :: k in sorted[..at] + [key] + sorted[at..] <==> k in sorted || k == key
  {
    assert sorted == sorted[..at] + sorted[at..];
  }

  method Insert(sorted: seq<string>, key: string) returns (more: seq<string>)
    requires StrictlyIncreasing(sorted) && key !in sorted
    ensures StrictlyIncreasing(more)
    ensures forall k :: k in more <==> k in sorted || k == key
  {
    var at := |sorted|;
    while at > 0 && Less(key, sorted[at - 1])
      invariant 0 <= at <= |sorted|
      invariant forall i | at <= i < |sorted| :: Less(key, sorted[i])
    {
      at := at - 1;
    }
    forall i | 0 <= i < at ensures Less(sorted[i], key) {
      LessTotal(sorted[at - 1], key);
      if i < at - 1 {
        LessTransitive(sorted[i], sorted[at - 1], key);
      }
    }
    more := sorted[..at] + [key] + sorted[at..];
    Inserted(sorted, at, key);
  }

  method AnyToAttributeValue(v: Json, float: FloatParser) returns (a: Attribute)
    ensures Represents(a, v, float)
    decreases v
  {
    match v
    case Null => a := StringValue("");
    case Bool(b) => a := BoolValue(b);
    case Str(s) => a := StringValue(s);
    case Number(text) => a := NumberValue(text, float);
    case Arr(elems) =>
      var vals: seq<Attribute> := [];
      for i := 0 to |elems|
        invariant |vals| == i && forall j | 0 <= j < i :: Represents(vals[j], elems[j], float)
      {
        var val := AnyToAttributeValue(elems[i], float);
        vals := vals + [val];
      }
      a := SliceValue(vals);
    case Obj(fields) =>
      var unsorted := CollectKeys(fields);
      var keys := SortStrings(unsorted);
      var entries: seq<(string, Attribute)> := [];
      for i := 0 to |keys|
        invariant |entries| == i
        invariant forall j | 0 <= j < i :: entries[j].0 == keys[j] && keys[j] in fields && Represents(entries[j].1, fields[keys[j]], float)
      {
        assert keys[i] in keys;
        var val := AnyToAttributeValue(fields[keys[i]], float);
        entries := entries + [(keys[i], val)];
      }
      assert Keys(entries) == keys;
      a := MapValue(entries);
  }

  // ---- Projections as log attributes ----

  // The first JSON document of a text, if it has one.
  type Decoder = string -> Option<Json>

  predicate IsStructured(j: Json) {
    j.Obj? || j.Arr?
  }

  predicate IsToolCallString(kind: ContentKind) {
    kind.ToolCallArguments? || kind.ToolCallResult?
  }

  // The document whose canonical value a projection is logged as. A string
  // that holds a tool call's arguments or result stands for what it encodes,
  // if that is an object or an array.
  function LoggedDocument(kind: ContentKind, data: string, decode: Decoder): Option<Json> {
    match decode(data)
    case None => None
    case Some(Str(s)) =>
      if IsToolCallString(kind) && decode(s).Some? && IsStructured(decode(s).value) then decode(s) else Some(Str(s))
    case Some(j) => Some(j)
  }

  method LogValue(p: ProjectedContent, decode: Decoder, float: FloatParser) returns (a: Attribute)
    ensures p.NoContent? || decode(p.data).None? <==> a == Invalid
    ensures a != Invalid ==> Represents(a, LoggedDocument(p.kind, p.data, decode).value, float)
  {
    if p.NoContent? {
      return Invalid;
    }
    var v := decode(p.data);
    if v.None? {
      return Invalid;
    }
    if IsToolCallString(p.kind) && v.value.Str? {
      var inner := decode(v.value.s);
      if inner.Some? && IsStructured(inner.value) {
        a := AnyToAttributeValue(inner.value, float);
      } else {
        a := StringValue(v.value.s);
      }
      return;
    }
    a := AnyToAttributeValue(v.value, float);
  }

  // A tool call string is logged as a structured value exactly if it decodes
  // to an object or an array; otherwise as the string itself.
  lemma ToolCallStringsLogged(a: Attribute, kind: ContentKind, data: string, s: string, decode: Decoder, float: FloatParser)
    requires IsToolCallString(kind) && decode(data) == Some(Str(s))
    requires Represents(a, LoggedDocument(kind, data, decode).value, float)
    ensures (a.MapValue? || a.SliceValue?) <==> decode(s).Some? && IsStructured(decode(s).value)
    ensures !(a.MapValue? || a.SliceValue?) ==> a == StringValue(s)
    ensures a.MapValue? || a.SliceValue? ==> Represents(a, decode(s).value, float)
  {
  }
}
