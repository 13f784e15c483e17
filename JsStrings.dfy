/**
 * The few JavaScript string operations the site uses, on `seq<char>`:
 * `startsWith`, `includes`, `replace` with a string pattern (first occurrence
 * only), and truthiness of an optional string (`""` and absence are falsy).
 */
module JsStrings {
  import opened Wrappers

  /** `s.startsWith(p)` */
  predicate StartsWith(s: string, p: string) {
    |p| <= |s| && s[..|p|] == p
  }

  /** `p` occurs in `s` starting at index `i`. */
  predicate OccursAt(s: string, p: string, i: int) {
    0 <= i && i + |p| <= |s| && s[i..i + |p|] == p
  }

  /** `s.includes(p)`: `p` occurs somewhere in `s`. */
  predicate Includes(s: string, p: string) {
    exists i :: 0 <= i <= |s| && OccursAt(s, p, i)
  }

  /** A value that JavaScript treats as true: present and non-empty. */
  predicate Truthy(o: Option<string>) {
    o.Some? && o.value != ""
  }

  /** The first index at which `p` occurs in `s`, as `s.indexOf(p)`; None for -1. */
  function IndexOf(s: string, p: string): (r: Option<nat>)
    ensures r.Some? ==> OccursAt(s, p, r.value)
    ensures r.Some? ==> forall j :: 0 <= j < r.value ==> !OccursAt(s, p, j)
    ensures r.None? <==> !Includes(s, p)
    decreases |s|
  {
    if |p| > |s| then None
    else if s[..|p|] == p then Some(0)
    else
      match IndexOf(s[1..], p)
      case None =>
        assert !OccursAt(s, p, 0);
        assert forall i :: OccursAt(s, p, i) && i >= 1 ==> OccursAt(s[1..], p, i - 1) by {
          forall i | OccursAt(s, p, i) && i >= 1 ensures OccursAt(s[1..], p, i - 1) {
            assert s[1..][i - 1..i - 1 + |p|] == s[i..i + |p|];
          }
        }
        None
      case Some(k) =>
        assert s[1..][k..k + |p|] == s[k + 1..k + 1 + |p|];
        assert OccursAt(s, p, k + 1);
        assert forall j :: 1 <= j < k + 1 && OccursAt(s, p, j) ==> OccursAt(s[1..], p, j - 1) by {
          forall j | 1 <= j < k + 1 && OccursAt(s, p, j) ensures OccursAt(s[1..], p, j - 1) {
            assert s[1..][j - 1..j - 1 + |p|] == s[j..j + |p|];
          }
        }
        Some(k + 1)
  }

  /** `s.replace(p, q)` with a string pattern: only the first occurrence is replaced. */
  function ReplaceFirst(s: string, p: string, q: string): (r: string)
    ensures !Includes(s, p) ==> r == s
  {
    match IndexOf(s, p)
    case None => s
    case Some(i) => s[..i] + q + s[i + |p|..]
  }

  /** When `s` starts with `p`, replacing the first `p` by nothing drops exactly the prefix. */
  lemma ReplacePrefixDropsPrefix(s: string, p: string)
    requires StartsWith(s, p)
    ensures ReplaceFirst(s, p, "") == s[|p|..]
  {
    var i := IndexOf(s, p);
    assert OccursAt(s, p, 0);
  }
}
