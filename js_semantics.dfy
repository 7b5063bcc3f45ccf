/**
 * The few JavaScript built-ins the find-game route relies on, stated on values:
 * truthiness of an optional string and the `||` fallback built on it,
 * `Array.prototype.join`, and `Promise.all` over promises that have already settled.
 */
module JsSemantics {
  import opened Wrappers

  /** A string-or-nullish value is truthy exactly when it is a non-empty string. */
  predicate Truthy(v: Option<string>)
  {
    v.Some? && v.value != ""
  }

  /** `v || fallback` where `v` is a string, `null` or `undefined`. */
  function OrElse(v: Option<string>, fallback: string): (r: string)
    ensures Truthy(v) ==> r == v.value
    ensures !Truthy(v) ==> r == fallback
  {
    if Truthy(v) then v.value else fallback
  }

  /** `needle` sits in `s` starting at index `at`. */
  predicate OccursAt(needle: string, s: string, at: nat)
  {
    at + |needle| <= |s| && s[at..at + |needle|] == needle
  }

  /**
   * `parts.join(sep)`: the parts in order, with `sep` between neighbours and nowhere else.
   * A single part is the whole result; otherwise the first part opens the result and,
   * with two or more parts, a separator follows it.
   */
  function Join(parts: seq<string>, sep: string): (r: string)
    ensures parts == [] ==> r == ""
    ensures |parts| == 1 ==> r == parts[0]
    ensures parts != [] ==> OccursAt(parts[0], r, 0)
    ensures |parts| >= 2 ==> OccursAt(sep, r, |parts[0]|)
  {
    if |parts| == 0 then ""
    else if |parts| == 1 then parts[0]
    else parts[0] + sep + Join(parts[1..], sep)
  }

  /** With a non-empty separator, a join is empty only for `[]` and `[""]`. */
  lemma JoinEmptyIff(parts: seq<string>, sep: string)
    requires sep != ""
    ensures Join(parts, sep) == "" <==> parts == [] || parts == [""]
  {
  }

  /** Joining a concatenation joins the two halves and puts one separator between them. */
  lemma {:induction false} JoinConcat(a: seq<string>, b: seq<string>, sep: string)
    requires a != [] && b != []
    ensures Join(a + b, sep) == Join(a, sep) + sep + Join(b, sep)
  {
    if |a| == 1 {
      assert (a + b)[1..] == b;
    } else {
      assert (a + b)[1..] == a[1..] + b;
      JoinConcat(a[1..], b, sep);
    }
  }

  /**
   * `Promise.all` over promises that have already settled, each either fulfilled
   * (`Some`) or rejected (`None`): it rejects when any of them rejects and otherwise
   * fulfils with their values in index order, whatever order they settled in.
   */
  function All<T>(settled: seq<Option<T>>): (r: Option<seq<T>>)
    ensures r.Some? <==> forall i :: 0 <= i < |settled| ==> settled[i].Some?
    ensures r.Some? ==> |r.value| == |settled|
    ensures r.Some? ==> forall i :: 0 <= i < |settled| ==> settled[i] == Some(r.value[i])
  {
    if |settled| == 0 then Some([])
    else
      match settled[0]
      case None => None
      case Some(v) =>
        match All(settled[1..])
        case None => None
        case Some(vs) => Some([v] + vs)
  }
}
