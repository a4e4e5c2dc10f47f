/**
 * The `urlParameters` map a JDBC container fills in `configure`, and the
 * conditional insertion the containers use for optional settings.
 */
module UrlParameters {
  import opened JavaLang

  /** `if (StringUtils.isNotBlank(v)) urlParameters.put(key, v)`. */
  function PutIfNotBlank(params: map<string, string>, key: string, v: Option<string>): (r: map<string, string>)
    ensures IsNotBlank(v) ==> r == params[key := v.value]
    ensures !IsNotBlank(v) ==> r == params
  {
    if IsNotBlank(v) then params[key := v.value] else params
  }

  /** The value of `key` in `r` is `v` when `cond` holds and is the one in `params` (or absent) otherwise. */
  ghost predicate PutWhen(params: map<string, string>, r: map<string, string>, key: string, cond: bool, v: string) {
    && (cond ==> key in r && r[key] == v)
    && (!cond ==> (key in r <==> key in params) && (key in params ==> r[key] == params[key]))
  }

  /** `key` has the same value, or is absent, in both maps. */
  ghost predicate SameAt(a: map<string, string>, b: map<string, string>, key: string) {
    (key in a <==> key in b) && (key in a ==> a[key] == b[key])
  }

  /** Keys other than `keys` keep their value from `params`. */
  ghost predicate OthersUnchanged(params: map<string, string>, r: map<string, string>, keys: set<string>) {
    forall k :: k !in keys ==> (k in r <==> k in params) && (k in params ==> r[k] == params[k])
  }

  /** Two steps that each keep the keys outside their own set keep the keys outside both. */
  lemma OthersUnchangedCompose(a: map<string, string>, b: map<string, string>, c: map<string, string>,
                               keysAB: set<string>, keysBC: set<string>)
    requires OthersUnchanged(a, b, keysAB) && OthersUnchanged(b, c, keysBC)
    ensures OthersUnchanged(a, c, keysAB + keysBC)
  {
  }

  /** One `put`: sets its key and keeps every other. */
  lemma PutKeepsOthers(params: map<string, string>, key: string, v: string)
    ensures PutWhen(params, params[key := v], key, true, v)
    ensures OthersUnchanged(params, params[key := v], {key})
  {
  }

  /** `PutIfNotBlank` in the terms of `PutWhen`. */
  lemma PutIfNotBlankPuts(params: map<string, string>, key: string, v: Option<string>)
    ensures PutWhen(params, PutIfNotBlank(params, key, v), key, IsNotBlank(v), if v.Some? then v.value else "")
    ensures OthersUnchanged(params, PutIfNotBlank(params, key, v), {key})
  {
  }
}
