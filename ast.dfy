/**
 * The abstract syntax of a query (src/ast.rs) and its `Debug` renderers.
 *
 * A `Search` is the triple of search terms, transforms and an optional sort;
 * every type is a closed variant. The renderers print a query back in a
 * form close to its surface syntax, quoting strings the way Rust's `{:?}`
 * does. Each renderer has a reader beside it (`Decode...`) and a round-trip
 * lemma: the rendering determines the node it was printed from.
 */
module Ast {
  import opened Wrappers
  import Sequences

  datatype SearchTerm = Include(term: string) | Exclude(term: string) | Any

  datatype Comparison = Ne | Eq | Match

  datatype Aggregation = Count(fields: seq<string>)

  datatype Transform =
    | Aggregate(aggregation: Aggregation)
    | Filter(field: string, comparison: Comparison, value: string)
    | Parse(field: string, parser: string, bindings: seq<string>)

  datatype Sort = Desc(keys: seq<string>) | Asc(keys: seq<string>)

  datatype Search = Search(terms: seq<SearchTerm>, transforms: seq<Transform>, sort: Option<Sort>)

  predicate StartsWith(s: string, p: string)
  {
    |p| <= |s| && s[..|p|] == p
  }

  // ---------------------------------------------------------------------
  // `{:?}` on strings and on vectors of strings
  // ---------------------------------------------------------------------

  /** The escape `{:?}` writes for one character of a string. */
  function EscapeChar(c: char): string
  {
    if c == '"' then "\\\""
    else if c == '\\' then "\\\\"
    else if c == '\n' then "\\n"
    else if c == '\r' then "\\r"
    else if c == '\t' then "\\t"
    else if c == '\0' then "\\0"
    else [c]
  }

  function Escape(s: string): string
    decreases |s|
  {
    if s == [] then [] else EscapeChar(s[0]) + Escape(s[1..])
  }

  /** `{:?}` of a `&str`: the escaped text between double quotes. */
  function Quote(s: string): string
  {
    "\"" + Escape(s) + "\""
  }

  /** The entries of a `Vec<&str>` rendering, separated by ", ". */
  function Entries(xs: seq<string>): string
    decreases |xs|
  {
    if xs == [] then ""
    else if |xs| == 1 then Quote(xs[0])
    else Quote(xs[0]) + ", " + Entries(xs[1..])
  }

  /** `{:?}` of a `Vec<&str>`. */
  function DebugList(xs: seq<string>): string
  {
    "[" + Entries(xs) + "]"
  }

  // ---------------------------------------------------------------------
  // The renderers (src/ast.rs:40-91)
  // ---------------------------------------------------------------------

  function RenderTerm(t: SearchTerm): string
  {
    match t
    case Include(s) => Quote(s)
    case Exclude(s) => "! " + Quote(s)
    case Any => "*"
  }

  function RenderComparison(c: Comparison): string
  {
    match c
    case Ne => "!="
    case Eq => "="
    case Match => "match"
  }

  function RenderAggregation(a: Aggregation): string
  {
    match a
    case Count(fields) => "! count by " + DebugList(fields)
  }

  function RenderTransform(t: Transform): string
  {
    match t
    case Aggregate(a) => "! " + RenderAggregation(a)
    case Filter(field, comparison, value) =>
      "! where " + Quote(field) + " " + RenderComparison(comparison) + " " + Quote(value)
    case Parse(field, parser, bindings) =>
      "! parse " + Quote(field) + " " + Quote(parser) + " " + DebugList(bindings)
  }

  function RenderSort(s: Sort): string
  {
    match s
    case Asc(keys) => "! sort by " + DebugList(keys) + " asc"
    case Desc(keys) => "! sort by " + DebugList(keys)
  }

  // ---------------------------------------------------------------------
  // Readers: the inverse of each renderer
  // ---------------------------------------------------------------------

  function UnescapeChar(c: char): Option<char>
  {
    if c == '"' then Some('"')
    else if c == '\\' then Some('\\')
    else if c == 'n' then Some('\n')
    else if c == 'r' then Some('\r')
    else if c == 't' then Some('\t')
    else if c == '0' then Some('\0')
    else None
  }

  /** Reads escaped text up to the first unescaped '"'; gives the text and
      what follows the closing quote. */
  function ReadBody(s: string): (r: Option<(string, string)>)
    ensures r.Some? ==> |r.value.1| < |s|
    decreases |s|
  {
    if s == [] then None
    else if s[0] == '"' then Some(("", s[1..]))
    else if s[0] == '\\' then
      if |s| < 2 || UnescapeChar(s[1]).None? then None
      else
        var r := ReadBody(s[2..]);
        if r.None? then None else Some(([UnescapeChar(s[1]).value] + r.value.0, r.value.1))
    else
      var r := ReadBody(s[1..]);
      if r.None? then None else Some(([s[0]] + r.value.0, r.value.1))
  }

  function ReadQuoted(s: string): (r: Option<(string, string)>)
    ensures r.Some? ==> |r.value.1| < |s|
  {
    if |s| > 0 && s[0] == '"' then ReadBody(s[1..]) else None
  }

  /** Reads the entries of a non-empty list and its closing ']'. */
  function ReadEntries(s: string): (r: Option<(seq<string>, string)>)
    ensures r.Some? ==> |r.value.1| < |s|
    decreases |s|
  {
    var q := ReadQuoted(s);
    if q.None? then None
    else
      var x, rest := q.value.0, q.value.1;
      if StartsWith(rest, ", ") then
        var more := ReadEntries(rest[2..]);
        if more.None? then None else Some(([x] + more.value.0, more.value.1))
      else if StartsWith(rest, "]") then Some(([x], rest[1..]))
      else None
  }

  function ReadList(s: string): Option<(seq<string>, string)>
  {
    if StartsWith(s, "[]") then Some(([], s[2..]))
    else if StartsWith(s, "[") then ReadEntries(s[1..])
    else None
  }

  function DecodeTerm(r: string): Option<SearchTerm>
  {
    if r == "*" then Some(Any)
    else if StartsWith(r, "! ") then
      var q := ReadQuoted(r[2..]);
      if q.Some? && q.value.1 == "" then Some(Exclude(q.value.0)) else None
    else
      var q := ReadQuoted(r);
      if q.Some? && q.value.1 == "" then Some(Include(q.value.0)) else None
  }

  function DecodeComparison(r: string): Option<Comparison>
  {
    if r == "!=" then Some(Ne)
    else if r == "=" then Some(Eq)
    else if r == "match" then Some(Match)
    else None
  }

  /** Reads a comparison followed by one space. */
  function ReadComparison(s: string): Option<(Comparison, string)>
  {
    if StartsWith(s, "!= ") then Some((Ne, s[3..]))
    else if StartsWith(s, "= ") then Some((Eq, s[2..]))
    else if StartsWith(s, "match ") then Some((Match, s[6..]))
    else None
  }

  function DecodeAggregation(r: string): Option<Aggregation>
  {
    if StartsWith(r, "! count by ") then
      var l := ReadList(r[11..]);
      if l.Some? && l.value.1 == "" then Some(Count(l.value.0)) else None
    else None
  }

  function DecodeFilter(r: string): Option<Transform>
  {
    var f := ReadQuoted(r);
    if f.None? || !StartsWith(f.value.1, " ") then None
    else
      var c := ReadComparison(f.value.1[1..]);
      if c.None? then None
      else
        var v := ReadQuoted(c.value.1);
        if v.Some? && v.value.1 == "" then Some(Filter(f.value.0, c.value.0, v.value.0)) else None
  }

  function DecodeParse(r: string): Option<Transform>
  {
    var f := ReadQuoted(r);
    if f.None? || !StartsWith(f.value.1, " ") then None
    else
      var p := ReadQuoted(f.value.1[1..]);
      if p.None? || !StartsWith(p.value.1, " ") then None
      else
        var l := ReadList(p.value.1[1..]);
        if l.Some? && l.value.1 == "" then Some(Parse(f.value.0, p.value.0, l.value.0)) else None
  }

  function DecodeTransform(r: string): Option<Transform>
  {
    if !StartsWith(r, "! ") then None
    else
      var body := r[2..];
      if StartsWith(body, "where ") then DecodeFilter(body[6..])
      else if StartsWith(body, "parse ") then DecodeParse(body[6..])
      else
        var a := DecodeAggregation(body);
        if a.Some? then Some(Aggregate(a.value)) else None
  }

  function DecodeSort(r: string): Option<Sort>
  {
    if !StartsWith(r, "! sort by ") then None
    else
      var l := ReadList(r[10..]);
      if l.None? then None
      else if l.value.1 == "" then Some(Desc(l.value.0))
      else if l.value.1 == " asc" then Some(Asc(l.value.0))
      else None
  }

  // ---------------------------------------------------------------------
  // Round trips
  // ---------------------------------------------------------------------

  lemma EscapeCharShape(c: char)
    ensures || (EscapeChar(c) == [c] && c != '"' && c != '\\')
            || (|EscapeChar(c)| == 2 && EscapeChar(c)[0] == '\\' && UnescapeChar(EscapeChar(c)[1]) == Some(c))
  {
  }

  /** Reading one escaped character and then the rest. */
  lemma ReadBodyCons(c: char, tail: string)
    ensures ReadBody(EscapeChar(c) + tail) ==
      (var r := ReadBody(tail); if r.None? then None else Some(([c] + r.value.0, r.value.1)))
  {
    var e := EscapeChar(c);
    EscapeCharShape(c);
    if |e| == 2 {
      assert (e + tail)[0] == '\\' && (e + tail)[1] == e[1];
      assert (e + tail)[2..] == tail;
    } else {
      assert (e + tail)[0] == c;
      assert (e + tail)[1..] == tail;
    }
  }

  lemma {:induction false} ReadBodyRoundTrip(x: string, rest: string)
    ensures ReadBody(Escape(x) + "\"" + rest) == Some((x, rest))
    decreases |x|
  {
    if x == [] {
      assert Escape(x) + "\"" + rest == "\"" + rest;
      assert ("\"" + rest)[1..] == rest;
    } else {
      var e, ex := EscapeChar(x[0]), Escape(x[1..]);
      Sequences.Assoc(e, ex, "\"");
      Sequences.Assoc(e, ex + "\"", rest);
      ReadBodyRoundTrip(x[1..], rest);
      ReadBodyCons(x[0], ex + "\"" + rest);
      assert [x[0]] + x[1..] == x;
    }
  }

  lemma QuotedRoundTrip(x: string, rest: string)
    ensures ReadQuoted(Quote(x) + rest) == Some((x, rest))
  {
    var s := Quote(x) + rest;
    assert s[0] == '"';
    assert s[1..] == Escape(x) + "\"" + rest;
    ReadBodyRoundTrip(x, rest);
  }

  lemma QuoteStart(x: string)
    ensures |Quote(x)| >= 2 && Quote(x)[0] == '"'
  {
  }

  /** The last entry: a quoted string and the closing bracket. */
  lemma ReadEntriesLast(s: string, x: string, rest: string)
    requires ReadQuoted(s) == Some((x, "]" + rest))
    ensures ReadEntries(s) == Some(([x], rest))
  {
    assert ("]" + rest)[0] == ']';
    assert ("]" + rest)[..1] == "]";
    assert ("]" + rest)[1..] == rest;
  }

  /** An entry, the separator, and more entries. */
  lemma ReadEntriesMore(s: string, x: string, more: string, ys: seq<string>, rest: string)
    requires ReadQuoted(s) == Some((x, ", " + more))
    requires ReadEntries(more) == Some((ys, rest))
    ensures ReadEntries(s) == Some(([x] + ys, rest))
  {
    assert (", " + more)[..2] == ", ";
    assert (", " + more)[2..] == more;
  }

  lemma {:induction false} EntriesRoundTrip(xs: seq<string>, rest: string)
    requires xs != []
    ensures ReadEntries(Entries(xs) + "]" + rest) == Some((xs, rest))
    decreases |xs|
  {
    var q := Quote(xs[0]);
    if |xs| == 1 {
      Sequences.Assoc(q, "]", rest);
      QuotedRoundTrip(xs[0], "]" + rest);
      ReadEntriesLast(q + ("]" + rest), xs[0], rest);
      assert xs == [xs[0]];
    } else {
      var es := Entries(xs[1..]);
      var more := es + "]" + rest;
      Reassociate(q, ", ", es, "]", rest);
      Sequences.Assoc(es, "]", rest);
      QuotedRoundTrip(xs[0], ", " + more);
      EntriesRoundTrip(xs[1..], rest);
      ReadEntriesMore(q + (", " + more), xs[0], more, xs[1..], rest);
      assert [xs[0]] + xs[1..] == xs;
    }
  }

  lemma ListRoundTrip(xs: seq<string>, rest: string)
    ensures ReadList(DebugList(xs) + rest) == Some((xs, rest))
  {
    var s := DebugList(xs) + rest;
    if xs == [] {
      assert s == "[]" + rest;
      assert s[2..] == rest;
    } else {
      QuoteStart(xs[0]);
      assert Entries(xs)[0] == '"';
      assert s == "[" + (Entries(xs) + "]" + rest);
      assert s[1] == '"';
      assert s[1..] == Entries(xs) + "]" + rest;
      EntriesRoundTrip(xs, rest);
    }
  }

  /** The rendering of a search term determines the term. */
  lemma TermRoundTrip(t: SearchTerm)
    ensures DecodeTerm(RenderTerm(t)) == Some(t)
  {
    match t
    case Include(s) =>
      var r := Quote(s);
      QuoteStart(s);
      assert r != "*";
      assert r[..2][0] == '"';
      assert !StartsWith(r, "! ");
      QuotedRoundTrip(s, "");
      assert r + "" == r;
    case Exclude(s) =>
      var r := "! " + Quote(s);
      QuoteStart(s);
      assert r != "*";
      assert r[..2] == "! ";
      assert r[2..] == Quote(s) + "";
      QuotedRoundTrip(s, "");
    case Any =>
  }

  /** The three comparison renderings are pairwise distinct and read back. */
  lemma ComparisonRoundTrip(c: Comparison)
    ensures DecodeComparison(RenderComparison(c)) == Some(c)
  {
  }

  lemma AggregationRoundTrip(a: Aggregation)
    ensures DecodeAggregation(RenderAggregation(a)) == Some(a)
  {
    var r := RenderAggregation(a);
    assert r[11..] == DebugList(a.fields) + "";
    ListRoundTrip(a.fields, "");
  }

  lemma ReadComparisonRoundTrip(c: Comparison, rest: string)
    ensures ReadComparison(RenderComparison(c) + " " + rest) == Some((c, rest))
  {
    var s := RenderComparison(c) + " " + rest;
    match c {
      case Ne => assert s == "!= " + rest;
      case Eq => assert s == "= " + rest; assert s[0] == '=';
      case Match => assert s == "match " + rest; assert s[0] == 'm';
    }
  }

  /** How `DecodeFilter` proceeds: a quoted field, a space, a comparison
      with its space, a quoted value, nothing more. */
  lemma DecodeFilterSteps(r: string, f: string, rest: string, c: Comparison, qv: string, v: string)
    requires ReadQuoted(r) == Some((f, " " + rest))
    requires ReadComparison(rest) == Some((c, qv))
    requires ReadQuoted(qv) == Some((v, ""))
    ensures DecodeFilter(r) == Some(Filter(f, c, v))
  {
    assert (" " + rest)[..1] == " ";
    assert (" " + rest)[1..] == rest;
  }

  lemma FilterRoundTrip(field: string, comparison: Comparison, value: string)
    ensures DecodeFilter(Quote(field) + " " + RenderComparison(comparison) + " " + Quote(value))
         == Some(Filter(field, comparison, value))
  {
    var qf, rc, qv := Quote(field), RenderComparison(comparison), Quote(value);
    var tail := rc + " " + qv;
    Reassociate(qf, " ", rc, " ", qv);
    Sequences.Assoc(rc, " ", qv);
    QuotedRoundTrip(field, " " + tail);
    ReadComparisonRoundTrip(comparison, qv);
    QuotedRoundTrip(value, "");
    assert qv + "" == qv;
    DecodeFilterSteps(qf + (" " + tail), field, tail, comparison, qv, value);
  }

  lemma Reassociate(a: string, sep: string, b: string, c: string, d: string)
    ensures a + sep + b + c + d == a + (sep + (b + (c + d)))
  {
  }

  /** How `DecodeParse` proceeds: a quoted field, a space, a quoted
      pattern, a space, a list, nothing more. */
  lemma DecodeParseSteps(r: string, f: string, rest: string, p: string, rest2: string, bs: seq<string>)
    requires ReadQuoted(r) == Some((f, " " + rest))
    requires ReadQuoted(rest) == Some((p, " " + rest2))
    requires ReadList(rest2) == Some((bs, ""))
    ensures DecodeParse(r) == Some(Parse(f, p, bs))
  {
    assert (" " + rest)[..1] == " ";
    assert (" " + rest)[1..] == rest;
    assert (" " + rest2)[..1] == " ";
    assert (" " + rest2)[1..] == rest2;
  }

  lemma ParseRoundTrip(field: string, parser: string, bindings: seq<string>)
    ensures DecodeParse(Quote(field) + " " + Quote(parser) + " " + DebugList(bindings))
         == Some(Parse(field, parser, bindings))
  {
    var qf, qp, l := Quote(field), Quote(parser), DebugList(bindings);
    Reassociate(qf, " ", qp, " ", l);
    var mid := qp + (" " + l);
    QuotedRoundTrip(field, " " + mid);
    QuotedRoundTrip(parser, " " + l);
    ListRoundTrip(bindings, "");
    assert l + "" == l;
    DecodeParseSteps(qf + (" " + mid), field, mid, parser, l, bindings);
  }

  lemma DecodeWhere(rest: string)
    ensures DecodeTransform("! where " + rest) == DecodeFilter(rest)
  {
    var r := "! where " + rest;
    assert r[2..] == "where " + rest;
    assert r[2..][6..] == rest;
  }

  lemma DecodeParseKeyword(rest: string)
    ensures DecodeTransform("! parse " + rest) == DecodeParse(rest)
  {
    var r := "! parse " + rest;
    assert r[2..] == "parse " + rest;
    assert r[2..][6..] == rest;
  }

  lemma Reassociate6(a: string, b: string, c: string, d: string, e: string, f: string)
    ensures a + b + c + d + e + f == a + (b + c + d + e + f)
  {
  }

  /** The rendering of a transform determines the transform. */
  lemma TransformRoundTrip(t: Transform)
    ensures DecodeTransform(RenderTransform(t)) == Some(t)
  {
    match t
    case Aggregate(a) => AggregateTransformRoundTrip(a);
    case Filter(field, comparison, value) => FilterTransformRoundTrip(field, comparison, value);
    case Parse(field, parser, bindings) => ParseTransformRoundTrip(field, parser, bindings);
  }

  lemma AggregateTransformRoundTrip(a: Aggregation)
    ensures DecodeTransform(RenderTransform(Aggregate(a))) == Some(Aggregate(a))
  {
    var rest := DebugList(a.fields);
    var body := "! count by " + rest;
    assert RenderTransform(Aggregate(a)) == "! " + body;
    PrefixOf("! ", body, "! ");
    assert ("! " + body)[2..] == body;
    NotPrefixOf("! count by ", rest, "where ", 0);
    NotPrefixOf("! count by ", rest, "parse ", 0);
    AggregationRoundTrip(a);
  }

  lemma FilterTransformRoundTrip(field: string, comparison: Comparison, value: string)
    ensures DecodeTransform(RenderTransform(Filter(field, comparison, value))) == Some(Filter(field, comparison, value))
  {
    var qf, rc, qv := Quote(field), RenderComparison(comparison), Quote(value);
    Reassociate6("! where ", qf, " ", rc, " ", qv);
    DecodeWhere(qf + " " + rc + " " + qv);
    FilterRoundTrip(field, comparison, value);
  }

  lemma ParseTransformRoundTrip(field: string, parser: string, bindings: seq<string>)
    ensures DecodeTransform(RenderTransform(Parse(field, parser, bindings))) == Some(Parse(field, parser, bindings))
  {
    var qf, qp, l := Quote(field), Quote(parser), DebugList(bindings);
    Reassociate6("! parse ", qf, " ", qp, " ", l);
    DecodeParseKeyword(qf + " " + qp + " " + l);
    ParseRoundTrip(field, parser, bindings);
  }

  /** The rendering of a sort determines the sort and its direction. */
  lemma SortRoundTrip(s: Sort)
    ensures DecodeSort(RenderSort(s)) == Some(s)
  {
    var r := RenderSort(s);
    match s
    case Asc(keys) =>
      assert r[10..] == DebugList(keys) + " asc";
      ListRoundTrip(keys, " asc");
    case Desc(keys) =>
      assert r[10..] == DebugList(keys) + "";
      ListRoundTrip(keys, "");
  }

  /** Excluded terms start with "! ", included ones with a quote, and `Any`
      is "*". */
  lemma TermShape(t: SearchTerm)
    ensures t.Exclude? <==> StartsWith(RenderTerm(t), "! ")
    ensures t.Include? <==> StartsWith(RenderTerm(t), "\"")
    ensures t.Any? <==> RenderTerm(t) == "*"
  {
    match t {
      case Include(w) => QuoteStart(w);
      case Exclude(w) => QuoteStart(w);
      case Any => assert RenderTerm(t)[..1] == "*";
    }
  }

  lemma PrefixOf(p: string, rest: string, q: string)
    requires |q| <= |p| && p[..|q|] == q
    ensures StartsWith(p + rest, q)
  {
    assert (p + rest)[..|q|] == p[..|q|];
  }

  lemma NotPrefixOf(p: string, rest: string, q: string, i: nat)
    requires i < |p| && i < |q| && p[i] != q[i]
    ensures !StartsWith(p + rest, q)
  {
    if |q| <= |p + rest| {
      assert (p + rest)[..|q|][i] == p[i];
    }
  }

  /** Every transform starts with "! "; filters go on with "where " and
      parses with "parse "; an aggregate is "! " before the aggregation's own
      "! count by ". */
  lemma TransformShape(x: Transform)
    ensures StartsWith(RenderTransform(x), "! ")
    ensures x.Filter? <==> StartsWith(RenderTransform(x), "! where ")
    ensures x.Parse? <==> StartsWith(RenderTransform(x), "! parse ")
    ensures x.Aggregate? <==> StartsWith(RenderTransform(x), "! ! count by ")
  {
    match x {
      case Aggregate(a) => AggregateShape(a);
      case Filter(field, c, v) => FilterShape(field, c, v);
      case Parse(field, pattern, b) => ParseShape(field, pattern, b);
    }
  }

  lemma AggregateShape(a: Aggregation)
    ensures var r := RenderTransform(Aggregate(a));
      StartsWith(r, "! ") && StartsWith(r, "! ! count by ") && !StartsWith(r, "! where ") && !StartsWith(r, "! parse ")
  {
    var p, rest := "! ! count by ", DebugList(a.fields);
    Sequences.Assoc("! ", "! count by ", rest);
    assert "! " + "! count by " == p;
    PrefixOf(p, rest, "! ");
    PrefixOf(p, rest, p);
    NotPrefixOf(p, rest, "! where ", 2);
    NotPrefixOf(p, rest, "! parse ", 2);
  }

  lemma FilterShape(field: string, c: Comparison, v: string)
    ensures var r := RenderTransform(Filter(field, c, v));
      StartsWith(r, "! ") && StartsWith(r, "! where ") && !StartsWith(r, "! parse ") && !StartsWith(r, "! ! count by ")
  {
    var p, rest := "! where ", Quote(field) + " " + RenderComparison(c) + " " + Quote(v);
    Reassociate6(p, Quote(field), " ", RenderComparison(c), " ", Quote(v));
    PrefixOf(p, rest, "! ");
    PrefixOf(p, rest, p);
    NotPrefixOf(p, rest, "! parse ", 2);
    NotPrefixOf(p, rest, "! ! count by ", 2);
  }

  lemma ParseShape(field: string, pattern: string, b: seq<string>)
    ensures var r := RenderTransform(Parse(field, pattern, b));
      StartsWith(r, "! ") && StartsWith(r, "! parse ") && !StartsWith(r, "! where ") && !StartsWith(r, "! ! count by ")
  {
    var p, rest := "! parse ", Quote(field) + " " + Quote(pattern) + " " + DebugList(b);
    Reassociate6(p, Quote(field), " ", Quote(pattern), " ", DebugList(b));
    PrefixOf(p, rest, "! ");
    PrefixOf(p, rest, p);
    NotPrefixOf(p, rest, "! where ", 2);
    NotPrefixOf(p, rest, "! ! count by ", 2);
  }

  /** Every sort starts with "! sort by "; an ascending one ends in " asc",
      a descending one in the list's closing bracket. */
  lemma SortShape(s: Sort)
    ensures StartsWith(RenderSort(s), "! sort by ")
    ensures s.Asc? ==> RenderSort(s)[|RenderSort(s)| - 4..] == " asc"
    ensures s.Desc? ==> RenderSort(s)[|RenderSort(s)| - 1] == ']'
  {
    match s {
      case Asc(keys) =>
        assert RenderSort(s) == "! sort by " + (DebugList(keys) + " asc");
      case Desc(keys) =>
        assert RenderSort(s) == "! sort by " + DebugList(keys);
    }
  }

  /** Sorts render the same list either way; only " asc" tells them apart. */
  lemma SortRenderingsDiffer(keys: seq<string>)
    ensures RenderSort(Asc(keys)) == RenderSort(Desc(keys)) + " asc"
  {
  }
}
