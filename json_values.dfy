/**
 * JSON-like values and the dictionary utilities the pipeline applies to them:
 * sanitising Python containers into JSON, dropping empty entries, and deep merging.
 */
module JsonValues {
  import opened Wrappers
  import opened Strings

  datatype Json =
    | Null
    | Bool(b: bool)
    | Num(n: int)
    | Str(s: string)
    | Arr(items: seq<Json>)
    | Obj(fields: map<string, Json>)

  // ---------------------------------------------------------------- sanitising

  /** The Python values the sanitiser is given: JSON values plus tuples and sets (as their iteration order). */
  datatype PyValue =
    | PyNone
    | PyBool(b: bool)
    | PyInt(n: int)
    | PyStr(s: string)
    | PyList(items: seq<PyValue>)
    | PyTuple(items: seq<PyValue>)
    | PySet(items: seq<PyValue>)
    | PyDict(fields: map<string, PyValue>)

  /** Dictionaries keep their keys; lists, tuples and sets become lists of the same length. */
  function Sanitize(v: PyValue): (j: Json)
    ensures v.PyDict? ==> j.Obj? && j.fields.Keys == v.fields.Keys
    ensures (v.PyList? || v.PyTuple? || v.PySet?) ==> j.Arr? && |j.items| == |v.items|
  {
    match v
    case PyNone => Null
    case PyBool(b) => Bool(b)
    case PyInt(n) => Num(n)
    case PyStr(s) => Str(s)
    case PyList(items) => Arr(seq(|items|, i requires 0 <= i < |items| => Sanitize(items[i])))
    case PyTuple(items) => Arr(seq(|items|, i requires 0 <= i < |items| => Sanitize(items[i])))
    case PySet(items) => Arr(seq(|items|, i requires 0 <= i < |items| => Sanitize(items[i])))
    case PyDict(fields) => Obj(map k | k in fields :: Sanitize(fields[k]))
  }

  /** A JSON value seen as the Python value that holds it. */
  function FromJson(j: Json): PyValue
  {
    match j
    case Null => PyNone
    case Bool(b) => PyBool(b)
    case Num(n) => PyInt(n)
    case Str(s) => PyStr(s)
    case Arr(items) => PyList(seq(|items|, i requires 0 <= i < |items| => FromJson(items[i])))
    case Obj(fields) => PyDict(map k | k in fields :: FromJson(fields[k]))
  }

  /** Sanitising a value that is already JSON gives it back unchanged. */
  lemma {:induction false} SanitizeJson(j: Json)
    ensures Sanitize(FromJson(j)) == j
  {
    match j
    case Arr(items) =>
      var r := Sanitize(FromJson(j));
      assert |r.items| == |items|;
      forall i | 0 <= i < |items|
        ensures r.items[i] == items[i]
      {
        SanitizeJson(items[i]);
      }
    case Obj(fields) =>
      var r := Sanitize(FromJson(j));
      forall k | k in fields
        ensures r.fields[k] == fields[k]
      {
        SanitizeJson(fields[k]);
      }
    case _ =>
  }

  // ---------------------------------------------------------------- removing empty values

  /** What becomes of one entry of a dictionary being cleaned: dropped (`None`) or kept with a value. */
  function CleanEntry(v: Json): (r: Option<Json>)
    decreases v, 1
  {
    match v
    case Null => None
    case Str(s) => if Strip(s) == [] then None else Some(v)
    case Arr(items) => if items == [] then None else Some(v)
    case Obj(_) =>
      var c := Cleaned(v);
      if c.fields == map[] then None else Some(c)
    case _ => Some(v)
  }

  /** The dictionary with its empty entries removed, recursively; anything else unchanged. */
  function Cleaned(j: Json): (r: Json)
    ensures j.Obj? <==> r.Obj?
    ensures !j.Obj? ==> r == j
    ensures r.Obj? ==> r.fields.Keys <= j.fields.Keys
    decreases j, 0
  {
    match j
    case Obj(m) => Obj(map k | k in m && CleanEntry(m[k]).Some? :: CleanEntry(m[k]).value)
    case _ => j
  }

  /**
   * `clean_empty_values`: the entries are visited one at a time and copied into a
   * fresh dictionary unless empty; nested dictionaries are cleaned first.
   */
  method CleanEmptyValues(data: Json) returns (r: Json)
    ensures r == Cleaned(data)
    decreases data
  {
    if !data.Obj? {
      return data;
    }
    var m := data.fields;
    var cleaned: map<string, Json> := map[];
    var todo := m.Keys;
    while todo != {}
      invariant todo <= m.Keys
      invariant cleaned.Keys <= m.Keys - todo
      invariant forall k :: k in m.Keys - todo ==> (k in cleaned <==> CleanEntry(m[k]).Some?)
      invariant forall k :: k in cleaned ==> cleaned[k] == CleanEntry(m[k]).value
      decreases |todo|
    {
      var key :| key in todo;
      var value := m[key];
      var kept: Option<Json> := None;
      if value.Null? {
      } else if value.Str? && Strip(value.s) == [] {
      } else if value.Arr? && |value.items| == 0 {
      } else if value.Obj? {
        var cv := CleanEmptyValues(value);
        if cv.fields != map[] {
          kept := Some(cv);
        }
      } else {
        kept := Some(value);
      }
      assert kept == CleanEntry(value);
      if kept.Some? {
        cleaned := cleaned[key := kept.value];
      }
      todo := todo - {key};
    }
    return Obj(cleaned);
  }

  /** No entry at any depth is null, blank, an empty list or an empty dictionary. */
  predicate NoEmpties(j: Json)
  {
    j.Obj? ==>
      forall k :: k in j.fields ==>
        && !j.fields[k].Null?
        && !(j.fields[k].Str? && IsBlank(j.fields[k].s))
        && j.fields[k] != Arr([])
        && (j.fields[k].Obj? ==> j.fields[k].fields != map[] && NoEmpties(j.fields[k]))
  }

  lemma {:induction false} CleanedHasNoEmpties(j: Json)
    ensures NoEmpties(Cleaned(j))
  {
    if j.Obj? {
      var r := Cleaned(j);
      forall k | k in r.fields
        ensures !r.fields[k].Null?
        ensures !(r.fields[k].Str? && IsBlank(r.fields[k].s))
        ensures r.fields[k] != Arr([])
        ensures r.fields[k].Obj? ==> r.fields[k].fields != map[] && NoEmpties(r.fields[k])
      {
        var v := j.fields[k];
        assert CleanEntry(v).Some? && r.fields[k] == CleanEntry(v).value;
        if v.Str? {
          StripEmptyIffBlank(v.s);
        }
        if v.Obj? {
          CleanedHasNoEmpties(v);
        }
      }
    }
  }

  /** The entries `clean_empty_values` drops: null, a blank string, an empty list, a dictionary that cleans to nothing. */
  predicate IsEmptyValue(v: Json)
  {
    v.Null? || (v.Str? && IsBlank(v.s)) || v == Arr([]) || (v.Obj? && Cleaned(v).fields == map[])
  }

  /** What a kept entry becomes: a dictionary its cleaned form, anything else itself. */
  function KeptValue(v: Json): Json
  {
    if v.Obj? then Cleaned(v) else v
  }

  lemma {:induction false} CleanEntryMeaning(v: Json)
    ensures CleanEntry(v).None? <==> IsEmptyValue(v)
    ensures CleanEntry(v).Some? ==> CleanEntry(v).value == KeptValue(v)
  {
    if v.Str? {
      StripEmptyIffBlank(v.s);
    }
  }

  /**
   * Exactly the non-empty entries survive, and a kept dictionary holds its
   * cleaned form while any other kept entry is the input's value.
   */
  lemma {:induction false} CleanedKeepsValues(j: Json)
    requires j.Obj?
    ensures forall k :: k in Cleaned(j).fields <==> k in j.fields && !IsEmptyValue(j.fields[k])
    ensures forall k :: k in Cleaned(j).fields ==> Cleaned(j).fields[k] == KeptValue(j.fields[k])
  {
    forall k | k in j.fields
      ensures CleanEntry(j.fields[k]).None? <==> IsEmptyValue(j.fields[k])
      ensures CleanEntry(j.fields[k]).Some? ==> CleanEntry(j.fields[k]).value == KeptValue(j.fields[k])
    {
      CleanEntryMeaning(j.fields[k]);
    }
  }

  /** Cleaning twice is cleaning once. */
  lemma {:induction false} CleanedIdempotent(j: Json)
    ensures Cleaned(Cleaned(j)) == Cleaned(j)
  {
    if j.Obj? {
      var c := Cleaned(j);
      var cc := Cleaned(c);
      forall k | k in c.fields
        ensures CleanEntry(c.fields[k]) == Some(c.fields[k])
      {
        var v := j.fields[k];
        assert CleanEntry(v).Some? && c.fields[k] == CleanEntry(v).value;
        if v.Obj? {
          CleanedIdempotent(v);
        }
      }
      assert cc.fields.Keys == c.fields.Keys;
      assert cc == c;
    }
  }

  // ---------------------------------------------------------------- deep merge

  /** The value `merge_schemas` gives a key present in the override. */
  function MergedEntry(base: map<string, Json>, over: map<string, Json>, k: string): Json
    requires k in over
    decreases Obj(over), 0
  {
    if k in base && base[k].Obj? && over[k].Obj? then Obj(Merged(base[k].fields, over[k].fields))
    else over[k]
  }

  /** The deep merge as a dictionary: every key of either side, override values winning except between two dictionaries. */
  function Merged(base: map<string, Json>, over: map<string, Json>): (r: map<string, Json>)
    ensures r.Keys == base.Keys + over.Keys
    ensures forall k :: k in r ==> r[k] == if k in over then MergedEntry(base, over, k) else base[k]
    decreases Obj(over), 2
  {
    MergedOn(base, over, over.Keys)
  }

  /** The base with the override entries of `done` written into it. */
  function MergedOn(base: map<string, Json>, over: map<string, Json>, done: set<string>): (r: map<string, Json>)
    requires done <= over.Keys
    ensures r.Keys == base.Keys + done
    ensures forall k :: k in r ==> r[k] == if k in done then MergedEntry(base, over, k) else base[k]
    decreases Obj(over), 1
  {
    map k | k in base.Keys + done :: if k in done then MergedEntry(base, over, k) else base[k]
  }

  lemma {:induction false} MergedOnStep(base: map<string, Json>, over: map<string, Json>, done: set<string>, key: string)
    requires done <= over.Keys && key in over && key !in done
    ensures MergedOn(base, over, done + {key}) == MergedOn(base, over, done)[key := MergedEntry(base, over, key)]
  {
  }

  lemma {:induction false} MoveKey(done: set<string>, todo: set<string>, all: set<string>, key: string)
    requires done + todo == all && done !! todo && key in todo
    ensures (done + {key}) + (todo - {key}) == all && (done + {key}) !! (todo - {key})
  {
  }

  /**
   * `merge_schemas`: starts from a copy of the base and writes each override entry
   * into it, merging recursively where both sides hold dictionaries.
   */
  method MergeSchemas(base: map<string, Json>, over: map<string, Json>) returns (result: map<string, Json>)
    ensures result == Merged(base, over)
    decreases Obj(over)
  {
    result := base;
    var todo := over.Keys;
    ghost var done: set<string> := {};
    assert MergedOn(base, over, done) == base;
    while todo != {}
      invariant done + todo == over.Keys && done !! todo
      invariant result == MergedOn(base, over, done)
      decreases |todo|
    {
      var key :| key in todo;
      assert key in result <==> key in base;
      assert key in base ==> result[key] == base[key];
      var value := over[key];
      var merged := value;
      if key in result && result[key].Obj? && value.Obj? {
        assert Obj(value.fields) == value;
        var inner := MergeSchemas(result[key].fields, value.fields);
        merged := Obj(inner);
      }
      assert merged == MergedEntry(base, over, key);
      MergedOnStep(base, over, done, key);
      MoveKey(done, todo, over.Keys, key);
      result := result[key := merged];
      todo := todo - {key};
      done := done + {key};
    }
  }

  /** Override values win, except that two dictionaries are merged; base-only keys keep their value. */
  lemma {:induction false} MergedEntries(base: map<string, Json>, over: map<string, Json>, k: string)
    requires k in base.Keys + over.Keys
    ensures k !in over ==> Merged(base, over)[k] == base[k]
    ensures k in over && !(k in base && base[k].Obj? && over[k].Obj?) ==> Merged(base, over)[k] == over[k]
    ensures k in over && k in base && base[k].Obj? && over[k].Obj? ==>
      Merged(base, over)[k] == Obj(Merged(base[k].fields, over[k].fields))
  {
  }

  /** Merging in nothing leaves the base as it was. */
  lemma {:induction false} MergeEmptyOverride(base: map<string, Json>)
    ensures Merged(base, map[]) == base
  {
  }

  /** Merging into nothing gives the override. */
  lemma {:induction false} MergeEmptyBase(over: map<string, Json>)
    ensures Merged(map[], over) == over
  {
  }

  /** Merging a dictionary with itself gives it back. */
  lemma {:induction false} MergeSelf(m: map<string, Json>)
    ensures Merged(m, m) == m
    decreases Obj(m)
  {
    forall k | k in m
      ensures Merged(m, m)[k] == m[k]
    {
      if m[k].Obj? {
        MergeSelf(m[k].fields);
      }
    }
  }
}
