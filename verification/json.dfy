/** Optional values and fallible results, shared by every module. */
module Outcomes {
  datatype Option<+T> = None | Some(value: T)

  datatype Result<+T, +E> = Ok(value: T) | Err(error: E)
}

/** Small numbers and classes of characters that several components use. */
module Basics {
  function Min(a: int, b: int): int { if a <= b then a else b }

  lemma SubsetIsSmaller<T>(a: set<T>, b: set<T>)
    requires a <= b
    ensures |a| <= |b|
  {
    assert b == a + (b - a);
    assert |b| == |a| + |b - a|;
  }

  predicate IsControl(c: char) {
    c < ' ' || ('\U{7F}' <= c <= '\U{9F}')
  }

  predicate IsHex(c: char) {
    '0' <= c <= '9' || 'a' <= c <= 'f' || 'A' <= c <= 'F'
  }

  lemma HexDigits(c: char)
    ensures IsHex(c) <==> c in "0123456789abcdefABCDEF"
  {
    var digits := "0123456789abcdefABCDEF";
    assert forall i :: 0 <= i < 10 ==> digits[i] as int == '0' as int + i;
    assert forall i :: 10 <= i < 16 ==> digits[i] as int == 'a' as int + i - 10;
    assert forall i :: 16 <= i < 22 ==> digits[i] as int == 'A' as int + i - 16;
    if '0' <= c <= '9' {
      assert digits[c as int - '0' as int] == c;
    } else if 'a' <= c <= 'f' {
      assert digits[c as int - 'a' as int + 10] == c;
    } else if 'A' <= c <= 'F' {
      assert digits[c as int - 'A' as int + 16] == c;
    }
  }
}

/**
JSON values as the API handles them. Strings are sequences of bytes carried as characters, so
`|s|` is a byte length. Reading a member of a non-object, or an absent member, yields `Null`.
*/
module Json {
  import opened Outcomes

  datatype Value =
    | Null
    | Bool(b: bool)
    | Num(n: int)
    | Float(r: real)
    | Str(s: string)
    | Arr(items: seq<Value>)
    | Obj(fields: map<string, Value>)

  const U64_MAX: int := 0xFFFF_FFFF_FFFF_FFFF
  const U32_MAX: int := 0xFFFF_FFFF
  const U16_MAX: int := 0xFFFF
  const I64_MAX: int := 0x7FFF_FFFF_FFFF_FFFF
  const I64_MIN: int := -0x8000_0000_0000_0000

  /** `value[key]` of serde_json. */
  function At(v: Value, key: string): Value {
    if v.Obj? && key in v.fields then v.fields[key] else Null
  }

  function AsStr(v: Value): Option<string> {
    if v.Str? then Some(v.s) else None
  }

  function AsU64(v: Value): Option<nat> {
    if v.Num? && 0 <= v.n <= U64_MAX then Some(v.n) else None
  }

  function AsBool(v: Value): Option<bool> {
    if v.Bool? then Some(v.b) else None
  }
}
