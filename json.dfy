/**
 * The structured values the executor works on (serde_json's `Value`) and the
 * JSON-pointer lookup that the Filter and Parse stages use to resolve a
 * dotted field path (section 4 of RFC 6901, as `Value::pointer` evaluates it).
 */
module Json {
  import opened Wrappers

  /** A JSON value. Booleans, null and non-integer numbers are all `Other`:
      no stage of the pipeline tells them apart. */
  datatype Json =
    | Obj(fields: map<string, Json>)
    | Arr(items: seq<Json>)
    | Str(s: string)
    | Int(n: int)
    | Other

  /** `Option<&Value>::and_then(Value::as_str)`. */
  function AsStr(v: Option<Json>): (r: Option<string>)
    ensures r.Some? <==> v.Some? && v.value.Str?
    ensures r.Some? ==> v.value == Str(r.value)
  {
    if v.Some? && v.value.Str? then Some(v.value.s) else None
  }

  /** Rust's `str::replace`: every non-overlapping occurrence of `from`,
      scanning left to right, is replaced by `to`. */
  function Replace(s: string, from: string, to: string): string
    requires |from| > 0
    decreases |s|
  {
    if |s| < |from| then s
    else if s[..|from|] == from then to + Replace(s[|from|..], from, to)
    else [s[0]] + Replace(s[1..], from, to)
  }

  /** Rust's `str::split` on one character: the pieces between separators,
      so that "" gives [""] and "a/" gives ["a", ""]. */
  function Split(s: string, sep: char): (pieces: seq<string>)
    ensures |pieces| >= 1
    decreases |s|
  {
    if |s| == 0 then [""]
    else if s[0] == sep then [""] + Split(s[1..], sep)
    else
      var rest := Split(s[1..], sep);
      [[s[0]] + rest[0]] + rest[1..]
  }

  /** The pointer a field path becomes: "/" + field.replace(".", "/")
      (src/main.rs:74 and src/main.rs:98). */
  function FieldPointer(field: string): string
  {
    "/" + Replace(field, ".", "/")
  }

  /** A reference token with its escapes undone: "~1" -> "/", then "~0" -> "~". */
  function UnescapeToken(t: string): string
  {
    Replace(Replace(t, "~1", "/"), "~0", "~")
  }

  function UnescapeAll(pieces: seq<string>): (r: seq<string>)
    ensures |r| == |pieces|
    ensures forall i :: 0 <= i < |pieces| ==> r[i] == UnescapeToken(pieces[i])
  {
    seq(|pieces|, i requires 0 <= i < |pieces| => UnescapeToken(pieces[i]))
  }

  predicate IsDigit(c: char)
  {
    '0' <= c <= '9'
  }

  predicate AllDigits(t: string)
  {
    forall i :: 0 <= i < |t| ==> IsDigit(t[i])
  }

  function DecimalValue(t: string): nat
    requires AllDigits(t)
  {
    if |t| == 0 then 0
    else DecimalValue(t[..|t| - 1]) * 10 + (t[|t| - 1] as int - '0' as int)
  }

  /** An array-index token: decimal digits, no sign, no leading zero unless
      the token is "0". */
  function ParseIndex(t: string): (r: Option<nat>)
    ensures r.Some? ==> |t| > 0 && AllDigits(t)
  {
    if |t| == 0 || !AllDigits(t) || (t[0] == '0' && |t| != 1) then None
    else Some(DecimalValue(t))
  }

  /** Look the tokens up one after the other, by key in objects and by index
      in arrays; any other value, a missing key or a bad index gives None. */
  function Walk(v: Json, tokens: seq<string>): Option<Json>
    decreases |tokens|
  {
    if tokens == [] then Some(v)
    else match v
      case Obj(m) =>
        if tokens[0] in m then Walk(m[tokens[0]], tokens[1..]) else None
      case Arr(xs) =>
        var idx := ParseIndex(tokens[0]);
        if idx.Some? && idx.value < |xs| then Walk(xs[idx.value], tokens[1..]) else None
      case _ => None
  }

  /** `Value::pointer`: the empty pointer is the whole value, a pointer not
      starting with "/" resolves to nothing, otherwise its "/"-separated
      tokens are looked up in turn. */
  function Pointer(v: Json, ptr: string): Option<Json>
  {
    if ptr == [] then Some(v)
    else if ptr[0] != '/' then None
    else Walk(v, UnescapeAll(Split(ptr[1..], '/')))
  }

  /** `line.pointer(&pointer)` for the pointer built from a dotted field path. */
  function ResolveField(v: Json, field: string): Option<Json>
  {
    Pointer(v, FieldPointer(field))
  }

  // ---------------------------------------------------------------------
  // Path resolution lemmas
  // ---------------------------------------------------------------------

  lemma {:induction false} ReplaceAbsent(s: string, from: string, to: string)
    requires |from| > 0 && from[0] !in s
    ensures Replace(s, from, to) == s
    decreases |s|
  {
    if |s| >= |from| {
      assert s[..|from|][0] == s[0];
      assert s[0] in s;
      ReplaceAbsent(s[1..], from, to);
      assert forall c :: c in s[1..] ==> c in s;
      assert [s[0]] + s[1..] == s;
    }
  }

  /** Replacing '.' by '/' and splitting on '/' is splitting on '.', as long
      as the field holds no '/' of its own. */
  lemma {:induction false} SplitReplaced(f: string)
    requires '/' !in f
    ensures Split(Replace(f, ".", "/"), '/') == Split(f, '.')
    decreases |f|
  {
    if |f| > 0 {
      assert f[..1] == [f[0]];
      assert forall c :: c in f[1..] ==> c in f;
      SplitReplaced(f[1..]);
      var r := Replace(f[1..], ".", "/");
      if f[0] == '.' {
        assert Replace(f, ".", "/") == "/" + r;
        assert ("/" + r)[1..] == r;
      } else {
        assert f[0] in f;
        assert Replace(f, ".", "/") == [f[0]] + r;
        assert ([f[0]] + r)[1..] == r;
      }
    }
  }

  /** Every character of a piece of Split(s, sep) is a character of s. */
  lemma {:induction false} SplitPiecesFrom(s: string, sep: char)
    ensures forall i, c :: 0 <= i < |Split(s, sep)| && c in Split(s, sep)[i] ==> c in s
    decreases |s|
  {
    if |s| > 0 {
      SplitPiecesFrom(s[1..], sep);
      assert forall c :: c in s[1..] ==> c in s;
      assert s[0] in s;
    }
  }

  lemma UnescapePlain(t: string)
    requires '~' !in t
    ensures UnescapeToken(t) == t
  {
    ReplaceAbsent(t, "~1", "/");
    ReplaceAbsent(t, "~0", "~");
  }

  /** A dotted path whose segments hold neither '/' nor '~' resolves segment
      by segment: `a.b` looks up `a`, then `b`. */
  lemma DottedPathTokens(field: string)
    requires '/' !in field && '~' !in field
    ensures UnescapeAll(Split(FieldPointer(field)[1..], '/')) == Split(field, '.')
    ensures forall v :: ResolveField(v, field) == Walk(v, Split(field, '.'))
  {
    var p := FieldPointer(field);
    assert p[1..] == Replace(field, ".", "/");
    SplitReplaced(field);
    var pieces := Split(field, '.');
    SplitPiecesFrom(field, '.');
    forall i | 0 <= i < |pieces|
      ensures UnescapeToken(pieces[i]) == pieces[i]
    {
      UnescapePlain(pieces[i]);
    }
  }

  /** Splitting `a + "." + b` at dots, with no dot in `a`. */
  lemma {:induction false} SplitAtFirst(a: string, b: string, sep: char)
    requires sep !in a
    ensures Split(a + [sep] + b, sep) == [a] + Split(b, sep)
    decreases |a|
  {
    if |a| == 0 {
      assert a + [sep] + b == [sep] + b;
      assert ([sep] + b)[1..] == b;
    } else {
      assert a[0] in a;
      assert forall c :: c in a[1..] ==> c in a;
      SplitAtFirst(a[1..], b, sep);
      assert (a + [sep] + b)[1..] == a[1..] + [sep] + b;
      assert [a[0]] + a[1..] == a;
    }
  }

  lemma {:induction false} SplitNoSep(a: string, sep: char)
    requires sep !in a
    ensures Split(a, sep) == [a]
    decreases |a|
  {
    if |a| > 0 {
      assert a[0] in a;
      assert forall c :: c in a[1..] ==> c in a;
      SplitNoSep(a[1..], sep);
      assert [a[0]] + a[1..] == a;
    }
  }

  /** The two-segment case spelled out: in an object, "a.b" finds key `b` of
      the object stored under key `a`, and nothing when either is missing. */
  lemma NestedLookup(m: map<string, Json>, a: string, b: string)
    requires '.' !in a && '.' !in b && '/' !in a + b && '~' !in a + b
    ensures a !in m ==> ResolveField(Obj(m), a + "." + b) == None
    ensures a in m && m[a].Obj? ==>
      ResolveField(Obj(m), a + "." + b) == if b in m[a].fields then Some(m[a].fields[b]) else None
  {
    var f := a + "." + b;
    assert forall c :: c in f ==> c in a || c == '.' || c in b;
    DottedPathTokens(f);
    SplitAtFirst(a, b, '.');
    SplitNoSep(b, '.');
    assert Split(f, '.') == [a, b];
    if a in m && m[a].Obj? {
      assert Walk(Obj(m), [a, b]) == Walk(m[a], [b]);
      if b in m[a].fields {
        assert Walk(m[a], [b]) == Walk(m[a].fields[b], []);
      }
    }
  }
}
