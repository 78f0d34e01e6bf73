/**
 * The JSON values the pipeline passes between stages, and the few Python
 * operations on them the core uses: dict.get with a default, truthiness,
 * and str() of a scalar.
 */
module Json {
  import opened Wrappers
  import opened Text

  datatype Value =
    | Null
    | Bool(b: bool)
    | Int(i: int)
    | Str(s: string)
    | Arr(items: seq<Value>)
    | Obj(fields: map<string, Value>)

  /** A transcript or test case: a JSON object. */
  type Record = map<string, Value>

  /** Python truthiness: None, False, 0 and empty containers are false. */
  predicate Truthy(v: Value) {
    match v
    case Null => false
    case Bool(b) => b
    case Int(i) => i != 0
    case Str(s) => s != []
    case Arr(a) => a != []
    case Obj(m) => m != map[]
  }

  /** dict.get(key, default). */
  function Get(r: Record, key: string, default: Value): Value {
    if key in r then r[key] else default
  }

  /** A value Python can use as a dict key or set member: not a list or a dict. */
  predicate Hashable(v: Value) {
    !v.Arr? && !v.Obj?
  }

  predicate AllHashable(vs: seq<Value>) {
    forall i :: 0 <= i < |vs| ==> Hashable(vs[i])
  }

  /** One more hashable value keeps a prefix hashable. */
  lemma AllHashableNext(vs: seq<Value>, i: nat)
    requires i < |vs| && AllHashable(vs[..i]) && Hashable(vs[i])
    ensures AllHashable(vs[..i + 1])
  {
    assert forall j :: 0 <= j < i ==> vs[..i + 1][j] == vs[..i][j];
  }

  /** `[r.get(key, default) for r in rs]`: one field of every record. */
  function Column(rs: seq<Record>, key: string, default: Value): seq<Value> {
    seq(|rs|, i requires 0 <= i < |rs| => Get(rs[i], key, default))
  }

  /**
   * str(v) as an f-string renders it. Lists and dicts are rendered as
   * "[...]" and "{...}": their Python repr is not part of this model.
   */
  function Show(v: Value): string {
    match v
    case Null => "None"
    case Bool(b) => if b then "True" else "False"
    case Int(i) => IntToString(i)
    case Str(s) => s
    case Arr(_) => "[...]"
    case Obj(_) => "{...}"
  }

  /**
   * `v[:n] + suffix` when `len(v) > n`, else `v`, rendered by an f-string:
   * the truncation the prompts apply to a transcript field. Python's `len`
   * fails on a number, a boolean or None, and a long list or dict cannot
   * be sliced and joined to a string.
   */
  function Truncated(v: Value, n: nat, suffix: string): (r: Result<string>)
    ensures v.Str? ==> r == Ok(Truncate(v.s, n, suffix))
    ensures (v.Null? || v.Bool? || v.Int?) ==> r.Failure?
  {
    match v
    case Str(s) => Ok(Truncate(s, n, suffix))
    case Arr(items) => if |items| > n then Failure("TypeError: can only concatenate list (not \"str\") to list") else Ok(Show(v))
    case Obj(fields) => if |fields| > n then Failure("TypeError: unhashable type: 'slice'") else Ok(Show(v))
    case _ => Failure("TypeError: object has no len()")
  }
}
