/**
  JSON values as the backend's Python sees them after `json.loads`, with
  Python's truthiness, `dict.get` and `len`, and the foreign code the
  backend calls (the JSON decoder, regular-expression extractors, `str()`),
  which the model does not look inside.
*/
module Json {
  import opened Wrappers

  datatype Json =
    | JNull
    | JBool(b: bool)
    | JNum(n: real)
    | JStr(s: string)
    | JArr(items: seq<Json>)
    | JObj(fields: map<string, Json>)

  /** Python truthiness: None, False, 0, "", [] and {} are falsy. */
  predicate Truthy(j: Json) {
    match j
    case JNull => false
    case JBool(b) => b
    case JNum(n) => n != 0.0
    case JStr(s) => s != ""
    case JArr(a) => a != []
    case JObj(m) => m != map[]
  }

  /** Python `d.get(key, default)`. */
  function Get(d: map<string, Json>, key: string, default: Json): (r: Json)
    ensures key in d ==> r == d[key]
    ensures key !in d ==> r == default
  {
    if key in d then d[key] else default
  }

  /** Python `len(v)` succeeds exactly on strings, lists and dicts. */
  predicate Sized(j: Json) {
    j.JStr? || j.JArr? || j.JObj?
  }

  /** Python `len(v)`, for the values it accepts. */
  function Len(j: Json): nat
    requires Sized(j)
  {
    match j
    case JStr(s) => |s|
    case JArr(a) => |a|
    case JObj(m) => |m|
  }

  /** A Python list of strings. */
  function StrList(xs: seq<string>): (r: Json)
    ensures r.JArr? && |r.items| == |xs|
    ensures forall k :: 0 <= k < |xs| ==> r.items[k] == JStr(xs[k])
  {
    JArr(seq(|xs|, k requires 0 <= k < |xs| => JStr(xs[k])))
  }

  /** The strings of a list of strings, in order: `StrList` undone. */
  lemma StrListInjective(xs: seq<string>, ys: seq<string>)
    requires StrList(xs) == StrList(ys)
    ensures xs == ys
  {
    assert |xs| == |ys|;
    forall k | 0 <= k < |xs| ensures xs[k] == ys[k] {
      assert StrList(xs).items[k] == StrList(ys).items[k];
    }
  }

  /** A count, as the integer JSON number Python writes for `len(...)`. */
  function Count(n: nat): Json {
    JNum(n as real)
  }
}

/**
  The foreign code the backend relies on, given to the model as total
  functions: what each library or regular expression returns for an input.
*/
module Foreign {
  import opened Wrappers
  import opened Text
  import opened Json

  datatype Oracles = Oracles(
    /** `json.loads(s)`; None when it raises. */
    decode: string -> Option<Json>,
    /** `str(v)` for a decoded value that is not a string. */
    pyStr: Json -> string,
    /** `re.findall` over both technical/soft skill patterns, matches in order. */
    skillMatches: string -> seq<string>,
    /** All matches `_extract_skills_from_job_description` collects. */
    jobSkillMatches: string -> seq<string>,
    /** `re.search(r'\bW\b', text, re.IGNORECASE)` succeeds for word W. */
    containsWord: (string, string) -> bool,
    /** `re.search(r'\b\d{4}\b', text)` succeeds. */
    hasYear: string -> bool,
    /** `_extract_experience(text)`. */
    experience: string -> Json,
    /** `_extract_education(text)`. */
    education: string -> Json,
    /** `_extract_contact_info(text)`. */
    contactInfo: string -> Json)

  /** `_extract_skills` / `_extract_skills_from_text`: the distinct skill matches, as `list(set(...))`. */
  function ExtractSkills(o: Oracles, text: string): (r: seq<string>)
    ensures NoDup(r) && Elems(r) == Elems(o.skillMatches(text))
  {
    Dedup(o.skillMatches(text))
  }
}
