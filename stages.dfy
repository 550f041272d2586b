/**
 * What the stages the plan builder pushes do (the closures of
 * src/main.rs:49-145), as values and functions on sequences.
 *
 * Line stages keep or drop raw lines by substring. Record stages work on
 * parsed JSON values: a field filter, a regex-capture binding and a count-by
 * barrier. The regex engine and the JSON parser are foreign code and come
 * in as an `Engine` of uninterpreted functions. Where the source panics
 * through `unwrap`, the stage has a definedness predicate that callers must
 * establish.
 */
module Stages {
  import opened Wrappers
  import opened Sequences
  import opened Ast
  import opened Json

  // ---------------------------------------------------------------------
  // Substrings (`str::contains`)
  // ---------------------------------------------------------------------

  predicate Contains(s: string, sub: string)
    decreases |s|
  {
    StartsWith(s, sub) || (|s| > 0 && Contains(s[1..], sub))
  }

  ghost predicate OccursAt(s: string, sub: string, i: int)
  {
    0 <= i && i + |sub| <= |s| && s[i..i + |sub|] == sub
  }

  /** `Contains` is "occurs at some position". */
  lemma {:induction false} ContainsIffOccurs(s: string, sub: string)
    ensures Contains(s, sub) <==> exists i :: OccursAt(s, sub, i)
    decreases |s|
  {
    if |s| > 0 {
      ContainsIffOccurs(s[1..], sub);
      if Contains(s[1..], sub) {
        var i :| OccursAt(s[1..], sub, i);
        assert s[1..][i..i + |sub|] == s[i + 1..i + 1 + |sub|];
        assert OccursAt(s, sub, i + 1);
      }
      if i :| OccursAt(s, sub, i) {
        if i == 0 {
          assert StartsWith(s, sub);
        } else {
          assert s[1..][i - 1..i - 1 + |sub|] == s[i..i + |sub|];
          assert OccursAt(s[1..], sub, i - 1);
        }
      }
    } else if i :| OccursAt(s, sub, i) {
      assert |sub| == 0 && StartsWith(s, sub);
    }
    if StartsWith(s, sub) {
      assert OccursAt(s, sub, 0);
    }
  }

  // ---------------------------------------------------------------------
  // Line stages (src/main.rs:49-64)
  // ---------------------------------------------------------------------

  /** A compiled search term: keep lines that contain, or that lack, a text. */
  datatype LineStage = Including(term: string) | Excluding(term: string)

  predicate Keeps(st: LineStage, line: string)
  {
    match st
    case Including(t) => Contains(line, t)
    case Excluding(t) => !Contains(line, t)
  }

  /** `iter.filter(...)` with the stage's predicate. */
  function KeepLines(st: LineStage, lines: seq<string>): seq<string>
  {
    Sequences.Filter(line => Keeps(st, line), lines)
  }

  /** `search_stage.iter_mut().fold(lines, ...)`: the first stage is applied
      first. */
  function RunLineStages(stages: seq<LineStage>, lines: seq<string>): seq<string>
    decreases |stages|
  {
    if stages == [] then lines
    else KeepLines(stages[|stages| - 1], RunLineStages(stages[..|stages| - 1], lines))
  }

  predicate AcceptsAll(stages: seq<LineStage>, line: string)
  {
    forall i :: 0 <= i < |stages| ==> Keeps(stages[i], line)
  }

  /** The lines every stage accepts, in input order. */
  function SelectLines(stages: seq<LineStage>, lines: seq<string>): seq<string>
  {
    Sequences.Filter(line => AcceptsAll(stages, line), lines)
  }

  /** Folding the line stages is filtering by their conjunction. */
  lemma {:induction false} RunLineStagesIsConjunction(stages: seq<LineStage>, lines: seq<string>)
    ensures RunLineStages(stages, lines) == SelectLines(stages, lines)
    decreases |stages|
  {
    if stages == [] {
      FilterAll(lines);
    } else {
      var init, last := stages[..|stages| - 1], stages[|stages| - 1];
      RunLineStagesIsConjunction(init, lines);
      forall x
        ensures AcceptsAll(stages, x) == (AcceptsAll(init, x) && Keeps(last, x))
      {
        if AcceptsAll(init, x) && Keeps(last, x) {
          forall i | 0 <= i < |stages|
            ensures Keeps(stages[i], x)
          {
            if i < |stages| - 1 { assert stages[i] == init[i]; }
          }
        }
        if AcceptsAll(stages, x) {
          forall i | 0 <= i < |init|
            ensures Keeps(init[i], x)
          {
            assert stages[i] == init[i];
          }
          assert Keeps(stages[|stages| - 1], x);
        }
      }
      FilterConjunction(line => AcceptsAll(init, line), line => Keeps(last, line),
                        line => AcceptsAll(stages, line), lines);
    }
  }

  lemma {:induction false} FilterAll(lines: seq<string>)
    ensures SelectLines([], lines) == lines
    decreases |lines|
  {
    if lines != [] {
      FilterAll(lines[..|lines| - 1]);
      assert lines == lines[..|lines| - 1] + [lines[|lines| - 1]];
    }
  }

  /** What survives the line stages: exactly the input lines that every
      stage accepts, in input order (a line appearing before another in the
      output appears before it in the input). */
  lemma LineStagesSelect(stages: seq<LineStage>, lines: seq<string>, more: seq<string>)
    ensures forall x :: x in RunLineStages(stages, lines) <==> x in lines && AcceptsAll(stages, x)
    ensures RunLineStages(stages, lines + more) == RunLineStages(stages, lines) + RunLineStages(stages, more)
  {
    RunLineStagesIsConjunction(stages, lines);
    RunLineStagesIsConjunction(stages, more);
    RunLineStagesIsConjunction(stages, lines + more);
    FilterMembers(line => AcceptsAll(stages, line), lines);
    FilterAppend(line => AcceptsAll(stages, line), lines, more);
  }

  // ---------------------------------------------------------------------
  // The foreign engine
  // ---------------------------------------------------------------------

  /** The foreign code the executor calls: `serde_json::from_str` (None for
      a line that is not JSON), whether `Regex::new` accepts a pattern, and
      `Regex::captures` (None when the pattern does not match; otherwise the
      capture groups, group 0 being the whole match and None standing for a
      group that did not participate). */
  datatype Engine = Engine(
    parse: string -> Option<Json>,
    compiles: string -> bool,
    captures: (string, string) -> Option<seq<Option<string>>>)

  // ---------------------------------------------------------------------
  // Record stages (src/main.rs:66-145)
  // ---------------------------------------------------------------------

  datatype RecordStage =
    | FilterStage(field: string, comparison: Comparison, value: string)
    | ParseStage(field: string, parser: string, bindings: seq<string>)
    | CountStage(fields: seq<string>)

  /** The predicate of a Filter stage (src/main.rs:75-88). */
  predicate Passes(field: string, comparison: Comparison, value: string, rec: Json)
  {
    var found := AsStr(ResolveField(rec, field));
    match comparison
    case Eq => found == Some(value)
    case Ne => found != Some(value)
    case Match => found.Some? && Contains(found.value, value)
  }

  function FilterRecords(field: string, comparison: Comparison, value: string, recs: seq<Json>): seq<Json>
  {
    Sequences.Filter(rec => Passes(field, comparison, value, rec), recs)
  }

  /** `Eq` keeps a record exactly when the path resolves to the string
      `value`; `Ne` keeps exactly the others, so records where the path is
      missing or resolves to a non-string are kept; `Match` keeps a record
      when the path resolves to a string containing `value`. */
  lemma FilterSemantics(field: string, value: string, rec: Json)
    ensures Passes(field, Eq, value, rec) <==> ResolveField(rec, field) == Some(Str(value))
    ensures Passes(field, Ne, value, rec) <==> !Passes(field, Eq, value, rec)
    ensures Passes(field, Match, value, rec) <==>
      ResolveField(rec, field).Some? && ResolveField(rec, field).value.Str? &&
      exists i :: OccursAt(ResolveField(rec, field).value.s, value, i)
    ensures (ResolveField(rec, field).None? || !ResolveField(rec, field).value.Str?) ==>
      Passes(field, Ne, value, rec) && !Passes(field, Eq, value, rec) && !Passes(field, Match, value, rec)
  {
    var found := ResolveField(rec, field);
    if found.Some? && found.value.Str? {
      ContainsIffOccurs(found.value.s, value);
    }
  }

  /** An `Eq` filter and an `Ne` filter on the same field and value split any
      record sequence between them. */
  lemma EqNePartition(field: string, value: string, recs: seq<Json>)
    ensures multiset(FilterRecords(field, Eq, value, recs)) + multiset(FilterRecords(field, Ne, value, recs))
         == multiset(recs)
    ensures |FilterRecords(field, Eq, value, recs)| + |FilterRecords(field, Ne, value, recs)| == |recs|
  {
    FilterComplement(rec => Passes(field, Eq, value, rec), rec => Passes(field, Ne, value, rec), recs);
  }

  // --- Parse (src/main.rs:91-114) ---

  /** The text the pattern is applied to: the field, as a string. */
  function CaptureSource(field: string, rec: Json): Option<string>
  {
    AsStr(ResolveField(rec, field))
  }

  predicate GroupsPresent(groups: seq<Option<string>>, n: nat)
  {
    n < |groups| && forall i :: 1 <= i <= n ==> groups[i].Some?
  }

  /** Everything the Parse closure unwraps: the pattern compiles, the field
      resolves to a string, the pattern matches it, groups 1..|bindings|
      participated, and the record is an object whenever there is a binding
      to write into it. */
  predicate ParseDefined(eng: Engine, field: string, parser: string, bindings: seq<string>, rec: Json)
  {
    var text := CaptureSource(field, rec);
    && eng.compiles(parser)
    && text.Some?
    && eng.captures(parser, text.value).Some?
    && GroupsPresent(eng.captures(parser, text.value).value, |bindings|)
    && (rec.Obj? || bindings == [])
  }

  /** `cap[idx + 1]` for each binding index. */
  function Captured(eng: Engine, field: string, parser: string, bindings: seq<string>, rec: Json): (vs: seq<string>)
    requires ParseDefined(eng, field, parser, bindings, rec)
    ensures |vs| == |bindings|
  {
    var groups := eng.captures(parser, CaptureSource(field, rec).value).value;
    seq(|bindings|, i requires 0 <= i < |bindings| => groups[i + 1].value)
  }

  /** `m[keys[i]] = Value::String(values[i])` for i = 0, 1, ... in turn. */
  function Bind(m: map<string, Json>, keys: seq<string>, values: seq<string>): map<string, Json>
    requires |keys| == |values|
    decreases |keys|
  {
    if keys == [] then m
    else Bind(m, keys[..|keys| - 1], values[..|values| - 1])[keys[|keys| - 1] := Str(values[|values| - 1])]
  }

  /** The Parse closure applied to one record. */
  function ParseRecord(eng: Engine, field: string, parser: string, bindings: seq<string>, rec: Json): Json
    requires ParseDefined(eng, field, parser, bindings, rec)
  {
    if rec.Obj? then Obj(Bind(rec.fields, bindings, Captured(eng, field, parser, bindings, rec))) else rec
  }

  function ParseRecords(eng: Engine, field: string, parser: string, bindings: seq<string>, recs: seq<Json>): (out: seq<Json>)
    requires forall r :: r in recs ==> ParseDefined(eng, field, parser, bindings, r)
    ensures |out| == |recs|
    decreases |recs|
  {
    if recs == [] then []
    else ParseRecords(eng, field, parser, bindings, recs[..|recs| - 1])
         + [ParseRecord(eng, field, parser, bindings, recs[|recs| - 1])]
  }

  lemma {:induction false} BindKeys(m: map<string, Json>, keys: seq<string>, values: seq<string>)
    requires |keys| == |values|
    ensures forall k :: k in Bind(m, keys, values) <==> k in m || k in keys
    ensures forall k :: k !in keys && k in m ==> Bind(m, keys, values)[k] == m[k]
    decreases |keys|
  {
    if keys != [] {
      var init := keys[..|keys| - 1];
      BindKeys(m, init, values[..|values| - 1]);
      assert keys == init + [keys[|keys| - 1]];
    }
  }

  /** The binding written last for a name wins. */
  lemma {:induction false} BindLast(m: map<string, Json>, keys: seq<string>, values: seq<string>, i: nat)
    requires |keys| == |values| && i < |keys|
    requires forall j :: i < j < |keys| ==> keys[j] != keys[i]
    ensures keys[i] in Bind(m, keys, values) && Bind(m, keys, values)[keys[i]] == Str(values[i])
    decreases |keys|
  {
    if i < |keys| - 1 {
      BindLast(m, keys[..|keys| - 1], values[..|values| - 1], i);
    }
  }

  /** What a Parse stage does to one record: an object gets `Str(group i + 1)`
      under `bindings[i]` (the last binding wins when a name repeats),
      overwriting what was there, every other key keeps its value and no
      other key appears; any other value passes unchanged. */
  lemma ParseRecordEffect(eng: Engine, field: string, parser: string, bindings: seq<string>, rec: Json)
    requires ParseDefined(eng, field, parser, bindings, rec)
    ensures var out := ParseRecord(eng, field, parser, bindings, rec);
      var groups := eng.captures(parser, CaptureSource(field, rec).value).value;
      && (rec.Obj? ==>
            && out.Obj?
            && (forall k :: k in out.fields <==> k in rec.fields || k in bindings)
            && (forall k :: k in rec.fields && k !in bindings ==> out.fields[k] == rec.fields[k])
            && (forall i :: 0 <= i < |bindings| && (forall i' :: i < i' < |bindings| ==> bindings[i'] != bindings[i]) ==>
                  out.fields[bindings[i]] == Str(groups[i + 1].value)))
      && (!rec.Obj? ==> out == rec)
  {
    if rec.Obj? {
      var vs := Captured(eng, field, parser, bindings, rec);
      BindKeys(rec.fields, bindings, vs);
      forall i | 0 <= i < |bindings| && (forall i' :: i < i' < |bindings| ==> bindings[i'] != bindings[i])
        ensures Bind(rec.fields, bindings, vs)[bindings[i]] == Str(vs[i])
      {
        BindLast(rec.fields, bindings, vs, i);
      }
    }
  }

  /** A string, number, boolean or null record has nothing under any field
      path, since the pointer of src/main.rs:74 and src/main.rs:98 always has
      a token: `Ne` keeps it, `Eq` and `Match` drop it, and the `unwrap` at
      src/main.rs:101-102 panics on it in a Parse stage, with or without
      bindings. */
  lemma ScalarNeverParses(eng: Engine, field: string, parser: string, bindings: seq<string>, rec: Json, value: string)
    requires rec.Str? || rec.Int? || rec.Other?
    ensures ResolveField(rec, field) == None
    ensures Passes(field, Ne, value, rec)
    ensures !Passes(field, Eq, value, rec) && !Passes(field, Match, value, rec)
    ensures !ParseDefined(eng, field, parser, bindings, rec)
  {
  }

  /** A Parse stage maps record by record, keeping the order. */
  lemma {:induction false} ParseRecordsAt(eng: Engine, field: string, parser: string, bindings: seq<string>, recs: seq<Json>, j: nat)
    requires forall r :: r in recs ==> ParseDefined(eng, field, parser, bindings, r)
    requires j < |recs|
    ensures ParseRecords(eng, field, parser, bindings, recs)[j] == ParseRecord(eng, field, parser, bindings, recs[j])
    decreases |recs|
  {
    if j < |recs| - 1 {
      var init := recs[..|recs| - 1];
      assert init[j] == recs[j];
      ParseRecordsAt(eng, field, parser, bindings, init, j);
    }
  }

  /** The loop of src/main.rs:108-110 (and src/main.rs:135-137): write each
      value under its key, one after the other. */
  method BindAll(m: map<string, Json>, keys: seq<string>, values: seq<string>) returns (r: map<string, Json>)
    requires |keys| == |values|
    ensures r == Bind(m, keys, values)
  {
    r := m;
    for i := 0 to |keys|
      invariant r == Bind(m, keys[..i], values[..i])
    {
      assert keys[..i + 1][..i] == keys[..i] && values[..i + 1][..i] == values[..i];
      r := r[keys[i] := Str(values[i])];
    }
    assert keys[..|keys|] == keys && values[..|values|] == values;
  }

  /** The Parse closure body (src/main.rs:97-111): resolve the field, match
      the pattern, collect groups 1..|bindings|, then write them. */
  method ParseLine(eng: Engine, field: string, parser: string, bindings: seq<string>, rec: Json) returns (out: Json)
    requires ParseDefined(eng, field, parser, bindings, rec)
    ensures out == ParseRecord(eng, field, parser, bindings, rec)
  {
    var pointer := FieldPointer(field);
    var text := AsStr(Pointer(rec, pointer)).value;
    var cap := eng.captures(parser, text).value;
    var values: seq<string> := [];
    for idx := 0 to |bindings|
      invariant values == Captured(eng, field, parser, bindings, rec)[..idx]
    {
      values := values + [cap[idx + 1].value];
    }
    assert values == Captured(eng, field, parser, bindings, rec);
    if rec.Obj? {
      var m := BindAll(rec.fields, bindings, values);
      out := Obj(m);
    } else {
      out := rec;
    }
  }

  // --- Count (src/main.rs:118-145) ---

  /** Every name of the group key is a top-level string field of the record
      (`json[k].as_str().unwrap()` does not panic). */
  predicate KeyDefined(rec: Json, fields: seq<string>)
  {
    forall i :: 0 <= i < |fields| ==> rec.Obj? && fields[i] in rec.fields && rec.fields[fields[i]].Str?
  }

  /** The group key of a record: its string at each name, in order. */
  function Identity(rec: Json, fields: seq<string>): (t: seq<string>)
    requires KeyDefined(rec, fields)
    ensures |t| == |fields|
  {
    if fields == [] then []
    else
      // KeyDefined at index 0 makes the record an object.
      assert rec.Obj? by { assert fields[0] in fields; }
      seq(|fields|, i requires 0 <= i < |fields| => rec.fields[fields[i]].s)
  }

  function Identities(recs: seq<Json>, fields: seq<string>): (ids: seq<seq<string>>)
    requires forall r :: r in recs ==> KeyDefined(r, fields)
    ensures |ids| == |recs|
    decreases |recs|
  {
    if recs == [] then []
    else Identities(recs[..|recs| - 1], fields) + [Identity(recs[|recs| - 1], fields)]
  }

  /** The counting `HashMap`, with its keys in the order they were first
      inserted (the model's choice of enumeration order). */
  datatype Groups = Groups(keys: seq<seq<string>>, counts: map<seq<string>, nat>)

  /** The fold of src/main.rs:123-131, on the records' group keys: a key seen
      for the first time is appended with count 1, a key seen before has its
      count bumped. */
  function Group(ids: seq<seq<string>>): Groups
    decreases |ids|
  {
    if ids == [] then Groups([], map[]) else GroupStep(Group(ids[..|ids| - 1]), ids[|ids| - 1])
  }

  /** One turn of the fold: count the key `t`. */
  function GroupStep(g: Groups, t: seq<string>): Groups
  {
    if t in g.counts then Groups(g.keys, g.counts[t := g.counts[t] + 1])
    else Groups(g.keys + [t], g.counts[t := 1])
  }

  /** The grouping lists the distinct tuples of `ids`, each once, and counts
      each by the number of times it occurs. */
  lemma {:induction false} GroupSpec(ids: seq<seq<string>>)
    ensures NoDup(Group(ids).keys)
    ensures forall t :: t in Group(ids).keys <==> t in Group(ids).counts
    ensures forall t :: t in Group(ids).counts <==> t in ids
    ensures forall t :: t in Group(ids).counts ==> Group(ids).counts[t] == multiset(ids)[t]
    decreases |ids|
  {
    if ids != [] {
      var init, t := ids[..|ids| - 1], ids[|ids| - 1];
      GroupSpec(init);
      assert ids == init + [t];
    }
  }

  /** The record emitted for one group (src/main.rs:133-140). */
  function GroupRecord(fields: seq<string>, key: seq<string>, n: nat): Json
    requires |key| == |fields|
  {
    Obj(Bind(map[], fields, key)["_count" := Int(n)])
  }

  predicate KeysFit(keys: seq<seq<string>>, counts: map<seq<string>, nat>, width: nat)
  {
    forall j :: 0 <= j < |keys| ==> keys[j] in counts && |keys[j]| == width
  }

  function Emit(fields: seq<string>, keys: seq<seq<string>>, counts: map<seq<string>, nat>): (out: seq<Json>)
    requires KeysFit(keys, counts, |fields|)
    ensures |out| == |keys|
    decreases |keys|
  {
    if keys == [] then []
    else
      var last := keys[|keys| - 1];
      Emit(fields, keys[..|keys| - 1], counts) + [GroupRecord(fields, last, counts[last])]
  }

  lemma IdentitiesWidth(recs: seq<Json>, fields: seq<string>)
    requires forall r :: r in recs ==> KeyDefined(r, fields)
    ensures forall t :: t in Identities(recs, fields) ==> |t| == |fields|
  {
    forall t | t in Identities(recs, fields)
      ensures |t| == |fields|
    {
      var j :| 0 <= j < |recs| && Identities(recs, fields)[j] == t;
      IdentitiesAt(recs, fields, j);
    }
  }

  lemma {:induction false} IdentitiesAt(recs: seq<Json>, fields: seq<string>, j: nat)
    requires forall r :: r in recs ==> KeyDefined(r, fields)
    requires j < |recs|
    ensures Identities(recs, fields)[j] == Identity(recs[j], fields)
    decreases |recs|
  {
    if j < |recs| - 1 {
      var init := recs[..|recs| - 1];
      assert init[j] == recs[j];
      IdentitiesAt(init, fields, j);
    }
  }

  lemma {:induction false} IdentitiesPrefix(recs: seq<Json>, fields: seq<string>, i: nat)
    requires forall r :: r in recs ==> KeyDefined(r, fields)
    requires i < |recs|
    ensures Identities(recs[..i + 1], fields) == Identities(recs[..i], fields) + [Identity(recs[i], fields)]
  {
    assert recs[..i + 1][..i] == recs[..i];
  }

  lemma GroupSnoc(ids: seq<seq<string>>, t: seq<string>)
    ensures var g := Group(ids);
      Group(ids + [t]) == if t in g.counts then Groups(g.keys, g.counts[t := g.counts[t] + 1])
                          else Groups(g.keys + [t], g.counts[t := 1])
  {
    assert (ids + [t])[..|ids|] == ids;
  }

  /** The grouping of well-keyed records has keys of the right width. */
  lemma GroupFits(recs: seq<Json>, fields: seq<string>)
    requires forall r :: r in recs ==> KeyDefined(r, fields)
    ensures KeysFit(Group(Identities(recs, fields)).keys, Group(Identities(recs, fields)).counts, |fields|)
  {
    IdentitiesWidth(recs, fields);
    GroupSpec(Identities(recs, fields));
  }

  lemma EmitPrefix(fields: seq<string>, keys: seq<seq<string>>, counts: map<seq<string>, nat>, j: nat)
    requires KeysFit(keys, counts, |fields|) && j < |keys|
    ensures KeysFit(keys[..j], counts, |fields|) && KeysFit(keys[..j + 1], counts, |fields|)
    ensures Emit(fields, keys[..j + 1], counts) == Emit(fields, keys[..j], counts) + [GroupRecord(fields, keys[j], counts[keys[j]])]
  {
    assert keys[..j + 1][..j] == keys[..j];
  }

  /** The Count stage: one record per distinct group key. */
  function CountRecords(recs: seq<Json>, fields: seq<string>): seq<Json>
    requires forall r :: r in recs ==> KeyDefined(r, fields)
  {
    var g := Group(Identities(recs, fields));
    GroupFits(recs, fields);
    Emit(fields, g.keys, g.counts)
  }

  /** The fold of src/main.rs:123-131: `*counts.entry(identity).or_insert(0) += 1`
      for each record in turn. */
  method GroupBy(recs: seq<Json>, fields: seq<string>) returns (keys: seq<seq<string>>, counts: map<seq<string>, nat>)
    requires forall r :: r in recs ==> KeyDefined(r, fields)
    ensures Groups(keys, counts) == Group(Identities(recs, fields))
  {
    keys, counts := [], map[];
    for i := 0 to |recs|
      invariant Groups(keys, counts) == Group(Identities(recs[..i], fields))
    {
      var identity := Identity(recs[i], fields);
      IdentitiesPrefix(recs, fields, i);
      GroupSnoc(Identities(recs[..i], fields), identity);
      if identity in counts {
        counts := counts[identity := counts[identity] + 1];
      } else {
        keys := keys + [identity];
        counts := counts[identity := 1];
      }
    }
    assert recs[..|recs|] == recs;
  }

  /** The map of src/main.rs:132-141: one record per counted key. */
  method EmitAll(fields: seq<string>, keys: seq<seq<string>>, counts: map<seq<string>, nat>) returns (out: seq<Json>)
    requires KeysFit(keys, counts, |fields|)
    ensures out == Emit(fields, keys, counts)
  {
    out := [];
    for j := 0 to |keys|
      invariant KeysFit(keys[..j], counts, |fields|)
      invariant out == Emit(fields, keys[..j], counts)
    {
      EmitPrefix(fields, keys, counts, j);
      var m := BindAll(map[], fields, keys[j]);
      m := m["_count" := Int(counts[keys[j]])];
      out := out + [Obj(m)];
    }
    assert keys[..|keys|] == keys;
  }

  /** The Count closure (src/main.rs:121-141): fold the records into the
      counting map, then emit one record per entry. */
  method CountBy(recs: seq<Json>, fields: seq<string>) returns (out: seq<Json>)
    requires forall r :: r in recs ==> KeyDefined(r, fields)
    ensures out == CountRecords(recs, fields)
  {
    var keys, counts := GroupBy(recs, fields);
    GroupFits(recs, fields);
    out := EmitAll(fields, keys, counts);
  }

  // --- Count stage properties ---

  /** The `_count` of a record, 0 when it has none. */
  function CountOf(r: Json): int
  {
    if r.Obj? && "_count" in r.fields && r.fields["_count"].Int? then r.fields["_count"].n else 0
  }

  function SumCounts(out: seq<Json>): int
    decreases |out|
  {
    if out == [] then 0 else SumCounts(out[..|out| - 1]) + CountOf(out[|out| - 1])
  }

  function SumOver(keys: seq<seq<string>>, counts: map<seq<string>, nat>): int
    decreases |keys|
  {
    if keys == [] then 0
    else SumOver(keys[..|keys| - 1], counts) + if keys[|keys| - 1] in counts then counts[keys[|keys| - 1]] else 0
  }

  lemma {:induction false} SumOverAgree(keys: seq<seq<string>>, c1: map<seq<string>, nat>, c2: map<seq<string>, nat>)
    requires forall j :: 0 <= j < |keys| ==> keys[j] in c1 && keys[j] in c2 && c1[keys[j]] == c2[keys[j]]
    ensures SumOver(keys, c1) == SumOver(keys, c2)
    decreases |keys|
  {
    if keys != [] {
      SumOverAgree(keys[..|keys| - 1], c1, c2);
    }
  }

  lemma {:induction false} SumOverBump(keys: seq<seq<string>>, counts: map<seq<string>, nat>, t: seq<string>)
    requires forall j :: 0 <= j < |keys| ==> keys[j] in counts
    requires NoDup(keys) && t in keys
    ensures SumOver(keys, counts[t := counts[t] + 1]) == SumOver(keys, counts) + 1
    decreases |keys|
  {
    var init, last := keys[..|keys| - 1], keys[|keys| - 1];
    if last == t {
      assert t !in init by {
        forall j | 0 <= j < |init| ensures init[j] != t {
          assert keys[j] != keys[|keys| - 1];
        }
      }
      SumOverAgree(init, counts, counts[t := counts[t] + 1]);
    } else {
      assert t in init by {
        var k :| 0 <= k < |keys| && keys[k] == t;
        assert k < |keys| - 1 && init[k] == t;
      }
      SumOverBump(init, counts, t);
    }
  }

  /** A new key with count one adds one to the sum. */
  lemma SumOverNew(keys: seq<seq<string>>, counts: map<seq<string>, nat>, t: seq<string>)
    requires forall j :: 0 <= j < |keys| ==> keys[j] in counts
    requires t !in counts
    ensures SumOver(keys + [t], counts[t := 1]) == SumOver(keys, counts) + 1
  {
    var c, ks := counts[t := 1], keys + [t];
    SumOverAgree(keys, counts, c);
    assert ks[..|ks| - 1] == keys && ks[|ks| - 1] == t;
  }

  /** Counting one more key adds one to the sum of the counts. */
  lemma GroupStepSum(g: Groups, t: seq<string>)
    requires NoDup(g.keys)
    requires forall j :: 0 <= j < |g.keys| ==> g.keys[j] in g.counts
    requires forall u :: u in g.keys <==> u in g.counts
    ensures SumOver(GroupStep(g, t).keys, GroupStep(g, t).counts) == SumOver(g.keys, g.counts) + 1
  {
    if t in g.counts {
      SumOverBump(g.keys, g.counts, t);
    } else {
      SumOverNew(g.keys, g.counts, t);
    }
  }

  /** The listed keys are distinct and are exactly the counted ones. */
  lemma GroupKeys(ids: seq<seq<string>>)
    ensures NoDup(Group(ids).keys)
    ensures forall j :: 0 <= j < |Group(ids).keys| ==> Group(ids).keys[j] in Group(ids).counts
    ensures forall t :: t in Group(ids).keys <==> t in Group(ids).counts
  {
    GroupSpec(ids);
  }

  /** The counts of the grouping add up to the number of tuples grouped. */
  lemma {:induction false} GroupSum(ids: seq<seq<string>>)
    ensures SumOver(Group(ids).keys, Group(ids).counts) == |ids|
    decreases |ids|
  {
    if ids != [] {
      var init, t := ids[..|ids| - 1], ids[|ids| - 1];
      var g := Group(init);
      GroupSum(init);
      GroupKeys(init);
      GroupStepSum(g, t);
    }
  }

  lemma GroupRecordCount(fields: seq<string>, key: seq<string>, n: nat)
    requires |key| == |fields|
    ensures CountOf(GroupRecord(fields, key, n)) == n
  {
  }

  lemma {:induction false} EmitSum(fields: seq<string>, keys: seq<seq<string>>, counts: map<seq<string>, nat>)
    requires KeysFit(keys, counts, |fields|)
    ensures SumCounts(Emit(fields, keys, counts)) == SumOver(keys, counts)
    decreases |keys|
  {
    if keys != [] {
      var init := keys[..|keys| - 1];
      EmitSum(fields, init, counts);
      var out := Emit(fields, keys, counts);
      assert out[..|out| - 1] == Emit(fields, init, counts);
      GroupRecordCount(fields, keys[|keys| - 1], counts[keys[|keys| - 1]]);
    }
  }

  /** The Count stage loses no record: the `_count` fields of its output add
      up to the number of records it consumed. */
  lemma CountSum(recs: seq<Json>, fields: seq<string>)
    requires forall r :: r in recs ==> KeyDefined(r, fields)
    ensures SumCounts(CountRecords(recs, fields)) == |recs|
  {
    var ids := Identities(recs, fields);
    var g := Group(ids);
    GroupFits(recs, fields);
    EmitSum(fields, g.keys, g.counts);
    GroupSum(ids);
  }

  lemma {:induction false} EmitAt(fields: seq<string>, keys: seq<seq<string>>, counts: map<seq<string>, nat>, j: nat)
    requires KeysFit(keys, counts, |fields|) && j < |keys|
    ensures Emit(fields, keys, counts)[j] == GroupRecord(fields, keys[j], counts[keys[j]])
    decreases |keys|
  {
    if j < |keys| - 1 {
      EmitAt(fields, keys[..|keys| - 1], counts, j);
    }
  }

  /** Names that repeat in `fields` carry the same value in `t`. */
  predicate Consistent(fields: seq<string>, t: seq<string>)
  {
    |t| == |fields| && forall i, j :: 0 <= i < |fields| && 0 <= j < |fields| && fields[i] == fields[j] ==> t[i] == t[j]
  }

  lemma {:induction false} BindConsistent(m: map<string, Json>, keys: seq<string>, values: seq<string>, i: nat)
    requires Consistent(keys, values) && i < |keys|
    ensures keys[i] in Bind(m, keys, values) && Bind(m, keys, values)[keys[i]] == Str(values[i])
    decreases |keys|
  {
    var n := |keys| - 1;
    if keys[i] != keys[n] {
      BindConsistent(m, keys[..n], values[..n], i);
    }
  }

  lemma IdentitiesConsistent(recs: seq<Json>, fields: seq<string>)
    requires forall r :: r in recs ==> KeyDefined(r, fields)
    ensures forall t :: t in Identities(recs, fields) ==> Consistent(fields, t)
  {
    forall t | t in Identities(recs, fields)
      ensures Consistent(fields, t)
    {
      var j :| 0 <= j < |recs| && Identities(recs, fields)[j] == t;
      IdentitiesAt(recs, fields, j);
    }
  }

  /** The record emitted for a group has exactly the keys `fields` and
      `_count`; `_count` holds the count; unless a group name is `_count`
      itself (which the count then overwrites), `fields[i]` holds the key's
      i-th string, so reading the group key back from the record gives the
      key it was emitted for. */
  lemma GroupRecordShape(fields: seq<string>, key: seq<string>, n: nat)
    requires Consistent(fields, key)
    ensures var out := GroupRecord(fields, key, n);
      && out.Obj?
      && (forall k :: k in out.fields <==> k in fields || k == "_count")
      && out.fields["_count"] == Int(n)
      && (forall i :: 0 <= i < |fields| && fields[i] != "_count" ==> out.fields[fields[i]] == Str(key[i]))
      && ("_count" !in fields ==> KeyDefined(out, fields) && Identity(out, fields) == key)
  {
    BindKeys(map[], fields, key);
    forall i | 0 <= i < |fields|
      ensures Bind(map[], fields, key)[fields[i]] == Str(key[i])
    {
      BindConsistent(map[], fields, key, i);
    }
  }

  /** The Count stage emits one record per group, in the order the groups
      were first seen: the j-th is the record of the j-th distinct group key,
      carrying as `_count` the number of input records with that key (at
      least one). */
  lemma CountRecordAt(recs: seq<Json>, fields: seq<string>, j: nat)
    requires forall r :: r in recs ==> KeyDefined(r, fields)
    requires j < |Group(Identities(recs, fields)).keys|
    ensures |CountRecords(recs, fields)| == |Group(Identities(recs, fields)).keys|
    ensures var ids := Identities(recs, fields);
      var key := Group(ids).keys[j];
      && Consistent(fields, key)
      && key in ids
      && CountRecords(recs, fields)[j] == GroupRecord(fields, key, multiset(ids)[key])
      && multiset(ids)[key] > 0
  {
    var ids := Identities(recs, fields);
    var g := Group(ids);
    GroupFits(recs, fields);
    GroupSpec(ids);
    IdentitiesConsistent(recs, fields);
    EmitAt(fields, g.keys, g.counts, j);
    assert g.keys[j] in g.keys;
  }

  lemma CountPairDistinct(recs: seq<Json>, fields: seq<string>, j: nat, k: nat)
    requires forall r :: r in recs ==> KeyDefined(r, fields)
    requires "_count" !in fields
    requires j < k < |Group(Identities(recs, fields)).keys|
    ensures |CountRecords(recs, fields)| == |Group(Identities(recs, fields)).keys|
    ensures KeysDiffer(CountRecords(recs, fields)[j], CountRecords(recs, fields)[k], fields)
  {
    var ids := Identities(recs, fields);
    var g := Group(ids);
    GroupSpec(ids);
    CountRecordAt(recs, fields, j);
    CountRecordAt(recs, fields, k);
    GroupRecordShape(fields, g.keys[j], multiset(ids)[g.keys[j]]);
    GroupRecordShape(fields, g.keys[k], multiset(ids)[g.keys[k]]);
  }

  /** Both records have a group key, and the keys differ. */
  predicate KeysDiffer(a: Json, b: Json, fields: seq<string>)
  {
    KeyDefined(a, fields) && KeyDefined(b, fields) && Identity(a, fields) != Identity(b, fields)
  }

  /** No two records of `out` have the same group key. */
  predicate DistinctKeys(out: seq<Json>, fields: seq<string>)
  {
    forall j, k :: 0 <= j < k < |out| ==> KeysDiffer(out[j], out[k], fields)
  }

  /** No two Count output records share a group key. */
  lemma CountDistinct(recs: seq<Json>, fields: seq<string>)
    requires forall r :: r in recs ==> KeyDefined(r, fields)
    requires "_count" !in fields
    ensures DistinctKeys(CountRecords(recs, fields), fields)
  {
    var out := CountRecords(recs, fields);
    GroupFits(recs, fields);
    forall j, k | 0 <= j < k < |out|
      ensures KeysDiffer(out[j], out[k], fields)
    {
      CountPairDistinct(recs, fields, j, k);
    }
  }

  /** Every group key of an input record is the key of some output record. */
  lemma CountCovers(recs: seq<Json>, fields: seq<string>, r: Json)
    requires forall r :: r in recs ==> KeyDefined(r, fields)
    requires r in recs
    ensures exists j :: 0 <= j < |Group(Identities(recs, fields)).keys| && Group(Identities(recs, fields)).keys[j] == Identity(r, fields)
  {
    var ids := Identities(recs, fields);
    GroupSpec(ids);
    var i :| 0 <= i < |recs| && recs[i] == r;
    IdentitiesAt(recs, fields, i);
    assert Identity(r, fields) in ids;
  }

  /** The Count output, read as a set and so independent of the order in
      which the groups are listed: every output record is the record of a
      group key of the input carrying that key's number of occurrences, and
      every group key of the input has its record among the outputs. */
  lemma CountRecordsOrderFree(recs: seq<Json>, fields: seq<string>)
    requires forall r :: r in recs ==> KeyDefined(r, fields)
    ensures forall o :: o in CountRecords(recs, fields) ==>
      exists k :: (k in Identities(recs, fields) && Consistent(fields, k) &&
        o == GroupRecord(fields, k, multiset(Identities(recs, fields))[k]))
    ensures forall k :: k in Identities(recs, fields) ==>
      Consistent(fields, k) && GroupRecord(fields, k, multiset(Identities(recs, fields))[k]) in CountRecords(recs, fields)
  {
    forall o | o in CountRecords(recs, fields)
      ensures exists k :: (k in Identities(recs, fields) && Consistent(fields, k) &&
        o == GroupRecord(fields, k, multiset(Identities(recs, fields))[k]))
    {
      CountOutputIsGroup(recs, fields, o);
    }
    forall k | k in Identities(recs, fields)
      ensures Consistent(fields, k) && GroupRecord(fields, k, multiset(Identities(recs, fields))[k]) in CountRecords(recs, fields)
    {
      CountGroupEmitted(recs, fields, k);
    }
  }

  lemma CountOutputIsGroup(recs: seq<Json>, fields: seq<string>, o: Json)
    requires forall r :: r in recs ==> KeyDefined(r, fields)
    requires o in CountRecords(recs, fields)
    ensures exists k :: (k in Identities(recs, fields) && Consistent(fields, k) &&
      o == GroupRecord(fields, k, multiset(Identities(recs, fields))[k]))
  {
    GroupFits(recs, fields);
    var out := CountRecords(recs, fields);
    var j :| 0 <= j < |out| && out[j] == o;
    CountRecordAt(recs, fields, j);
  }

  lemma CountGroupEmitted(recs: seq<Json>, fields: seq<string>, k: seq<string>)
    requires forall r :: r in recs ==> KeyDefined(r, fields)
    requires k in Identities(recs, fields)
    ensures Consistent(fields, k) && GroupRecord(fields, k, multiset(Identities(recs, fields))[k]) in CountRecords(recs, fields)
  {
    var ids := Identities(recs, fields);
    var g := Group(ids);
    GroupSpec(ids);
    assert k in g.keys;
    var j :| 0 <= j < |g.keys| && g.keys[j] == k;
    CountRecordAt(recs, fields, j);
    assert CountRecords(recs, fields)[j] == GroupRecord(fields, k, multiset(ids)[k]);
  }

  /** With `count by _count`, the count written last at src/main.rs:138
      overwrites the key written at src/main.rs:135-137: two records whose
      `_count` strings differ form two groups, and both groups emit the same
      record `{"_count": 1}`. */
  lemma CountFieldCollision()
    ensures var recs := [Obj(map["_count" := Str("a")]), Obj(map["_count" := Str("b")])];
      && (forall r :: r in recs ==> KeyDefined(r, ["_count"]))
      && CountRecords(recs, ["_count"]) == [Obj(map["_count" := Int(1)]), Obj(map["_count" := Int(1)])]
  {
    var recs := [Obj(map["_count" := Str("a")]), Obj(map["_count" := Str("b")])];
    var fields := ["_count"];
    assert recs[..1] == [recs[0]];
    assert Identity(recs[0], fields) == ["a"];
    assert Identity(recs[1], fields) == ["b"];
    var ids := Identities(recs, fields);
    assert Identities(recs[..1], fields) == [["a"]];
    assert ids == [["a"], ["b"]];
    assert ids[..1] == [["a"]];
    assert Group(ids[..1]) == Groups([["a"]], map[["a"] := 1]);
    assert ["b"] !in map[["a"] := 1];
    var g := Group(ids);
    assert g == Groups([["a"], ["b"]], map[["a"] := 1, ["b"] := 1]);
    assert g.keys[..1] == [["a"]];
    assert Bind(map[], fields, ["a"]) == map["_count" := Str("a")];
    assert Bind(map[], fields, ["b"]) == map["_count" := Str("b")];
    assert GroupRecord(fields, ["a"], 1) == Obj(map["_count" := Int(1)]);
    assert GroupRecord(fields, ["b"], 1) == Obj(map["_count" := Int(1)]);
  }

  // ---------------------------------------------------------------------
  // Running the record stages (src/main.rs:181-186)
  // ---------------------------------------------------------------------

  /** What a record stage needs of its input not to panic. */
  predicate StageDefined(eng: Engine, st: RecordStage, recs: seq<Json>)
  {
    match st
    case FilterStage(_, _, _) => true
    case ParseStage(field, parser, bindings) => forall r :: r in recs ==> ParseDefined(eng, field, parser, bindings, r)
    case CountStage(fields) => forall r :: r in recs ==> KeyDefined(r, fields)
  }

  function ApplyRecordStage(eng: Engine, st: RecordStage, recs: seq<Json>): seq<Json>
    requires StageDefined(eng, st, recs)
  {
    match st
    case FilterStage(field, comparison, value) => FilterRecords(field, comparison, value, recs)
    case ParseStage(field, parser, bindings) => ParseRecords(eng, field, parser, bindings, recs)
    case CountStage(fields) => CountRecords(recs, fields)
  }

  /** `iter.map(...)` with the Parse closure (src/main.rs:96-112). */
  method ParseAll(eng: Engine, field: string, parser: string, bindings: seq<string>, recs: seq<Json>) returns (out: seq<Json>)
    requires forall r :: r in recs ==> ParseDefined(eng, field, parser, bindings, r)
    ensures out == ParseRecords(eng, field, parser, bindings, recs)
  {
    out := [];
    for i := 0 to |recs|
      invariant out == ParseRecords(eng, field, parser, bindings, recs[..i])
    {
      assert recs[..i + 1][..i] == recs[..i];
      var rec := ParseLine(eng, field, parser, bindings, recs[i]);
      out := out + [rec];
    }
    assert recs[..|recs|] == recs;
  }

  /** Calling one stage closure on the records of the stages before it. */
  method RunStage(eng: Engine, st: RecordStage, recs: seq<Json>) returns (out: seq<Json>)
    requires StageDefined(eng, st, recs)
    ensures out == ApplyRecordStage(eng, st, recs)
  {
    match st {
      case FilterStage(field, comparison, value) =>
        out := FilterRecords(field, comparison, value, recs);
      case ParseStage(field, parser, bindings) =>
        out := ParseAll(eng, field, parser, bindings, recs);
      case CountStage(fields) =>
        out := CountBy(recs, fields);
    }
  }

  /** Every stage is defined on what the stages before it produce. */
  predicate RunDefined(eng: Engine, stages: seq<RecordStage>, recs: seq<Json>)
    decreases |stages|, 0
  {
    stages == [] ||
    (RunDefined(eng, stages[..|stages| - 1], recs) &&
     StageDefined(eng, stages[|stages| - 1], RunRecordStages(eng, stages[..|stages| - 1], recs)))
  }

  /** The record stages applied in declaration order. */
  function RunRecordStages(eng: Engine, stages: seq<RecordStage>, recs: seq<Json>): seq<Json>
    requires RunDefined(eng, stages, recs)
    decreases |stages|, 1
  {
    if stages == [] then recs
    else ApplyRecordStage(eng, stages[|stages| - 1], RunRecordStages(eng, stages[..|stages| - 1], recs))
  }

  /** A plan that runs is defined on each of its prefixes. */
  lemma {:induction false} RunDefinedPrefix(eng: Engine, stages: seq<RecordStage>, recs: seq<Json>, i: nat)
    requires RunDefined(eng, stages, recs) && i <= |stages|
    ensures RunDefined(eng, stages[..i], recs)
    decreases |stages|
  {
    if i < |stages| {
      assert stages[..|stages| - 1][..i] == stages[..i];
      RunDefinedPrefix(eng, stages[..|stages| - 1], recs, i);
    } else {
      assert stages[..i] == stages;
    }
  }

  /** Record stages compose: running a plan is running its first part and
      then its rest on the result. */
  lemma {:induction false} RunRecordStagesAppend(eng: Engine, a: seq<RecordStage>, b: seq<RecordStage>, recs: seq<Json>)
    requires RunDefined(eng, a + b, recs)
    ensures RunDefined(eng, a, recs)
    ensures RunDefined(eng, b, RunRecordStages(eng, a, recs))
    ensures RunRecordStages(eng, a + b, recs) == RunRecordStages(eng, b, RunRecordStages(eng, a, recs))
    decreases |b|
  {
    if b == [] {
      assert a + b == a;
    } else {
      var b' := b[..|b| - 1];
      assert (a + b)[..|a + b| - 1] == a + b';
      assert (a + b)[|a + b| - 1] == b[|b| - 1];
      RunRecordStagesAppend(eng, a, b', recs);
    }
  }
}
