/**
 * Parsed JSON trees and the null-propagating reads the broadcaster performs on them
 * (`node?.AsObject()[key]`, `node?.ToString()`, and `ToString()` of a JSON element).
 */
module JsonNodes {
  import opened Outcomes

  /** A parsed JSON value. Numbers keep their literal text; object key order is not kept. */
  datatype Json =
    | JNull
    | JBool(b: bool)
    | JNumber(literal: string)
    | JString(str: string)
    | JArray(items: seq<Json>)
    | JObject(fields: map<string, Json>)

  /** `obj[key]` on a JSON object: a missing key and a JSON null both read as null. */
  function Get(fields: map<string, Json>, key: string): Option<Json>
  {
    if key in fields && fields[key] != JNull then Some(fields[key]) else None
  }

  /** `node?.AsObject()[key]`: null stays null, a non-object throws. */
  function Member(node: Option<Json>, key: string): Result<Option<Json>>
  {
    match node
    case None => Ok(None)
    case Some(JObject(fields)) => Ok(Get(fields, key))
    case Some(_) => Err(NotAnObject)
  }

  /** A chain `node?.AsObject()[k0]?.AsObject()[k1]...` over the keys of `path`. */
  function ReadPath(node: Option<Json>, path: seq<string>): Result<Option<Json>>
    decreases |path|
  {
    if path == [] then Ok(node)
    else
      match Member(node, path[0])
      case Err(f) => Err(f)
      case Ok(next) => ReadPath(next, path[1..])
  }

  /**
   * `node?.ToString()` on a JSON node: a string node gives its contents, scalars their JSON
   * text, and null (absent or JSON null) stays null.
   */
  function NodeText(node: Option<Json>): (r: Result<Option<string>>)
    ensures r == Ok(None) <==> node.None? || node == Some(JNull)
    ensures r.Err? <==> node.Some? && (node.value.JArray? || node.value.JObject?)
    ensures r.Err? ==> r.fault == UnrenderedText
    ensures node.Some? && node.value.JString? ==> r == Ok(Some(node.value.str))
    ensures node.Some? && node.value.JNumber? ==> r == Ok(Some(node.value.literal))
    ensures node.Some? && node.value.JBool? ==> r == Ok(Some(if node.value.b then "true" else "false"))
  {
    match node
    case None => Ok(None)
    case Some(JNull) => Ok(None)
    case Some(JString(s)) => Ok(Some(s))
    case Some(JNumber(literal)) => Ok(Some(literal))
    case Some(JBool(b)) => Ok(Some(if b then "true" else "false"))
    case Some(_) => Err(UnrenderedText)
  }

  /**
   * `ToString()` on a value held in a typed twin's contents. A JSON null there is a null
   * reference, so the call throws. Strings and numbers read as they do through NodeText.
   */
  function ElementText(j: Json): (r: Result<string>)
    ensures r.Err? <==> j.JNull? || j.JArray? || j.JObject?
    ensures j.JNull? ==> r == Err(NullElement)
    ensures j.JString? || j.JNumber? ==> r.Ok? && NodeText(Some(j)) == Ok(Some(r.value))
    ensures j.JString? ==> r == Ok(j.str)
    ensures j.JNumber? ==> r == Ok(j.literal)
    ensures j.JBool? ==> r == Ok(if j.b then "True" else "False")
  {
    match j
    case JNull => Err(NullElement)
    case JString(s) => Ok(s)
    case JNumber(literal) => Ok(literal)
    case JBool(b) => Ok(if b then "True" else "False")
    case _ => Err(UnrenderedText)
  }

  /** Reference reading of a path: `v` sits in `j` under the keys of `path`, each step an object. */
  ghost predicate HasPath(j: Json, path: seq<string>, v: Json)
    decreases |path|
  {
    if path == [] then v == j
    else j.JObject? && path[0] in j.fields && HasPath(j.fields[path[0]], path[1..], v)
  }

  /** Reading any path from null yields null: every `?.` short-circuits. */
  lemma {:induction false} ReadPathFromNull(path: seq<string>)
    ensures ReadPath(None, path) == Ok(None)
    decreases |path|
  {
    if path != [] {
      ReadPathFromNull(path[1..]);
    }
  }

  /** A value present under `path` is what the read chain returns. */
  lemma {:induction false} ReadPathFound(j: Json, path: seq<string>, v: Json)
    requires HasPath(j, path, v)
    requires v != JNull
    ensures ReadPath(Some(j), path) == Ok(Some(v))
    decreases |path|
  {
    if path != [] {
      var next := j.fields[path[0]];
      assert next != JNull by {
        if path[1..] != [] {
          assert next.JObject?;
        }
      }
      ReadPathFound(next, path[1..], v);
    }
  }

  /**
   * If the walk along `path` reaches an object that lacks the next key (or holds
   * null there), the whole chain yields null rather than failing.
   */
  lemma {:induction false} ReadPathStops(j: Json, path: seq<string>, i: nat, m: map<string, Json>)
    requires i < |path|
    requires HasPath(j, path[..i], JObject(m))
    requires Get(m, path[i]) == None
    ensures ReadPath(Some(j), path) == Ok(None)
    decreases i
  {
    if i == 0 {
      ReadPathFromNull(path[1..]);
    } else {
      assert path[..i][1..] == path[1..][..i - 1];
      var next := j.fields[path[0]];
      assert next != JNull by {
        if i - 1 != 0 {
          assert next.JObject?;
        }
      }
      ReadPathStops(next, path[1..], i - 1, m);
    }
  }

  /**
   * If the walk along `path` reaches a value that is neither an object nor null before
   * the last key has been read, `AsObject()` throws there and the whole chain fails.
   */
  lemma {:induction false} ReadPathNotObject(j: Json, path: seq<string>, i: nat, v: Json)
    requires i < |path|
    requires HasPath(j, path[..i], v)
    requires !v.JNull? && !v.JObject?
    ensures ReadPath(Some(j), path) == Err(NotAnObject)
    decreases i
  {
    if i > 0 {
      assert path[..i][1..] == path[1..][..i - 1];
      var next := j.fields[path[0]];
      assert next != JNull by {
        if i - 1 != 0 {
          assert next.JObject?;
        }
      }
      ReadPathNotObject(next, path[1..], i - 1, v);
    }
  }
}
